/** Scenario partitioning of a demand series (the opening loop of
    `build_two_stage_model`): the series is cut into `numScenarios`
    contiguous blocks of `|data| / numScenarios` values each, in order, and
    whatever is left over at the end is dropped. */
module Scenarios {

  /** Where block `i` starts: `i * chunk`, built up one block at a time so
      that the proofs about blocks stay linear. `OffsetIsProduct` connects it
      to the product. */
  function Offset(i: nat, chunk: nat): nat
  {
    if i == 0 then 0 else Offset(i - 1, chunk) + chunk
  }

  /** The first `k` blocks of `chunk` consecutive values of `data`, block `i`
      being `data[i * chunk .. (i + 1) * chunk]`. This is the list the
      partitioning loop has built after `k` rounds. */
  function Blocks(data: seq<real>, k: nat, chunk: nat): (r: seq<seq<real>>)
    requires Offset(k, chunk) <= |data|
    ensures |r| == k
  {
    if k == 0 then [] else Blocks(data, k - 1, chunk) + [data[Offset(k - 1, chunk) .. Offset(k, chunk)]]
  }

  /** Concatenation of a list of blocks, front to back. */
  function Concat(blocks: seq<seq<real>>): seq<real>
  {
    if blocks == [] then [] else Concat(blocks[..|blocks| - 1]) + blocks[|blocks| - 1]
  }

  /** Block `i` starts at `i * chunk`. */
  lemma {:induction false} OffsetIsProduct(i: nat, chunk: nat)
    ensures Offset(i, chunk) == i * chunk
  {
    if i > 0 {
      OffsetIsProduct(i - 1, chunk);
      assert (i - 1) * chunk + chunk == i * chunk;
    }
  }

  /** Later blocks start no earlier. */
  lemma {:induction false} OffsetMonotone(i: nat, j: nat, chunk: nat)
    requires i <= j
    ensures Offset(i, chunk) <= Offset(j, chunk)
  {
    if i < j {
      OffsetMonotone(i, j - 1, chunk);
    }
  }

  /** Block `i` of the first `k` blocks is the `chunk` series values starting
      at `Offset(i, chunk)`: blocks are contiguous and in order, nothing is
      reordered or resampled. */
  lemma {:induction false} BlockAt(data: seq<real>, k: nat, chunk: nat, i: nat)
    requires Offset(k, chunk) <= |data|
    requires i < k
    ensures Offset(i, chunk) + chunk <= |data|
    ensures Blocks(data, k, chunk)[i] == data[Offset(i, chunk) .. Offset(i, chunk) + chunk]
  {
    if i < k - 1 {
      BlockAt(data, k - 1, chunk, i);
    }
  }

  /** Read back to back, the first `k` blocks are exactly the first
      `k * chunk` values of the series. */
  lemma {:induction false} BlocksCoverPrefix(data: seq<real>, k: nat, chunk: nat)
    requires Offset(k, chunk) <= |data|
    ensures Concat(Blocks(data, k, chunk)) == data[..Offset(k, chunk)]
  {
    if k > 0 {
      var b := Blocks(data, k, chunk);
      assert b[..k - 1] == Blocks(data, k - 1, chunk);
      BlocksCoverPrefix(data, k - 1, chunk);
      assert data[..Offset(k - 1, chunk)] + data[Offset(k - 1, chunk) .. Offset(k, chunk)] == data[..Offset(k, chunk)];
    }
  }

  /** `chunk_size = len(data) // num_scenarios` leaves a remainder shorter
      than the number of scenarios and never overruns the series. */
  lemma ChunkSizeBounds(length: nat, numScenarios: nat)
    requires numScenarios >= 1
    ensures numScenarios * (length / numScenarios) <= length
    ensures length - numScenarios * (length / numScenarios) < numScenarios
  {
  }

  /** `scenarios` are `k` blocks of `chunk` values each, value `t` of block
      `i` being the series value at `Offset(i, chunk) + t`, that is at
      `i * chunk + t` (`PartitionValueAt`). */
  predicate IsPartition(data: seq<real>, k: nat, chunk: nat, scenarios: seq<seq<real>>)
  {
    |scenarios| == k &&
    (forall i :: 0 <= i < k ==> |scenarios[i]| == chunk) &&
    (forall i, t :: 0 <= i < k && 0 <= t < chunk ==>
       Offset(i, chunk) + t < |data| && scenarios[i][t] == data[Offset(i, chunk) + t])
  }

  /** `BlockAt` for every block and position at once. */
  lemma BlocksShape(data: seq<real>, k: nat, chunk: nat)
    requires Offset(k, chunk) <= |data|
    ensures IsPartition(data, k, chunk, Blocks(data, k, chunk))
  {
    forall i | 0 <= i < k
      ensures Offset(i, chunk) + chunk <= |data|
      ensures Blocks(data, k, chunk)[i] == data[Offset(i, chunk) .. Offset(i, chunk) + chunk]
    {
      BlockAt(data, k, chunk, i);
    }
  }

  /** In a partition, value `t` of scenario `i` is the series value at
      `i * chunk + t`. */
  lemma PartitionValueAt(data: seq<real>, k: nat, chunk: nat, scenarios: seq<seq<real>>, i: nat, t: nat)
    requires IsPartition(data, k, chunk, scenarios)
    requires i < k && t < chunk
    ensures i * chunk + t < |data| && scenarios[i][t] == data[i * chunk + t]
  {
    OffsetIsProduct(i, chunk);
  }

  /** A partition is determined by the series and the block length: any
      list that is a partition of the first `k` blocks is `Blocks`. */
  lemma PartitionIsBlocks(data: seq<real>, k: nat, chunk: nat, scenarios: seq<seq<real>>)
    requires Offset(k, chunk) <= |data|
    requires IsPartition(data, k, chunk, scenarios)
    ensures scenarios == Blocks(data, k, chunk)
  {
    var b := Blocks(data, k, chunk);
    BlocksShape(data, k, chunk);
    forall i | 0 <= i < k
      ensures scenarios[i] == b[i]
    {
      assert forall t :: 0 <= t < chunk ==> scenarios[i][t] == b[i][t];
    }
  }

  /** The partitioning loop: returns the scenario list and `chunk_size`.
      The loop appends block `i` in round `i`, so the list after `i` rounds
      is `Blocks(data, i, chunk_size)`. */
  method SplitScenarios(data: seq<real>, numScenarios: nat) returns (scenarios: seq<seq<real>>, chunkSize: nat)
    requires numScenarios >= 1
    ensures chunkSize == |data| / numScenarios
    ensures IsPartition(data, numScenarios, chunkSize, scenarios)
  {
    chunkSize := |data| / numScenarios;
    ChunkSizeBounds(|data|, numScenarios);
    OffsetIsProduct(numScenarios, chunkSize);
    scenarios := [];
    for i := 0 to numScenarios
      invariant Offset(i, chunkSize) <= |data|
      invariant scenarios == Blocks(data, i, chunkSize)
    {
      OffsetMonotone(i + 1, numScenarios, chunkSize);
      OffsetIsProduct(i, chunkSize);
      OffsetIsProduct(i + 1, chunkSize);
      scenarios := scenarios + [data[i * chunkSize .. (i + 1) * chunkSize]];
    }
    BlocksShape(data, numScenarios, chunkSize);
  }

  /** What the partition keeps and drops: the scenarios (as `SplitScenarios`
      returns them) read back to back are the first
      `numScenarios * chunk_size` values of the series, and fewer than
      `numScenarios` values are left over. */
  lemma PartitionUsesPrefix(data: seq<real>, numScenarios: nat, scenarios: seq<seq<real>>)
    requires numScenarios >= 1
    requires IsPartition(data, numScenarios, |data| / numScenarios, scenarios)
    ensures var chunk := |data| / numScenarios;
      numScenarios * chunk <= |data| &&
      |data| - numScenarios * chunk < numScenarios &&
      Concat(scenarios) == data[..numScenarios * chunk]
  {
    var chunk := |data| / numScenarios;
    ChunkSizeBounds(|data|, numScenarios);
    OffsetIsProduct(numScenarios, chunk);
    PartitionIsBlocks(data, numScenarios, chunk, scenarios);
    BlocksCoverPrefix(data, numScenarios, chunk);
  }

  /** Six values in three scenarios give three consecutive pairs. */
  lemma PartitionExample()
    ensures Offset(3, 6 / 3) == 6
    ensures Blocks([10.0, 20.0, 30.0, 40.0, 50.0, 60.0], 3, 6 / 3)
            == [[10.0, 20.0], [30.0, 40.0], [50.0, 60.0]]
  {
    var data := [10.0, 20.0, 30.0, 40.0, 50.0, 60.0];
    assert 6 / 3 == 2;
    assert Offset(1, 2) == 2 && Offset(2, 2) == 4 && Offset(3, 2) == 6;
    assert Blocks(data, 1, 2) == [data[0..2]];
    assert Blocks(data, 2, 2) == [data[0..2], data[2..4]];
    assert Blocks(data, 3, 2) == [data[0..2], data[2..4], data[4..6]];
    assert data[0..2] == [10.0, 20.0] && data[2..4] == [30.0, 40.0] && data[4..6] == [50.0, 60.0];
  }
}
