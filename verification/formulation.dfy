/** The two-stage linear program of `build_two_stage_model`: first-stage wind
    and solar capacities shared by every scenario, second-stage generation and
    load shedding per scenario and time point, a cost per scenario and the
    threshold `t_cvar`. The program is stated here as the set of constraints a
    candidate solution must satisfy (`Feasible`) and the value the solver
    minimises (`Objective`); solving it is left to an outside solver. */
module Formulation {
  import Scenarios

  /** Investment cost per MW of wind capacity (`model.cost_of_wind`). */
  const CostOfWind: real := 1000.0
  /** Investment cost per MW of solar capacity (`model.cost_of_solar`). */
  const CostOfSolar: real := 800.0
  /** Penalty per unit of demand left unserved (`penalty_of_load_shed`). */
  const PenaltyOfLoadShed: real := 2000.0
  /** Weight of the worst scenario's cost in the objective (`lambda_risk`). */
  const LambdaRisk: real := 0.3

  /** The data of one program: `demand[s][t]` for every scenario `s` and time
      point `t < horizon` (`model.demand`, `model.SCENARIOS`, `model.TIME`). */
  datatype TwoStageLp = TwoStageLp(demand: seq<seq<real>>, horizon: nat)

  /** At least one scenario, and every scenario has one demand value per time
      point of the shared time index. */
  predicate WellFormed(lp: TwoStageLp)
  {
    |lp.demand| >= 1 &&
    forall s :: 0 <= s < |lp.demand| ==> |lp.demand[s]| == lp.horizon
  }

  /** Values for every decision variable of the program. */
  datatype Solution = Solution(
    windCapacity: real,
    solarCapacity: real,
    genWind: seq<seq<real>>,
    genSolar: seq<seq<real>>,
    loadShed: seq<seq<real>>,
    excessCost: seq<real>,
    tCvar: real)

  /** The solution has a value for exactly the index sets the program
      declares: scenarios by time points, and one cost per scenario. */
  predicate Shaped(lp: TwoStageLp, sol: Solution)
  {
    |sol.genWind| == |lp.demand| && |sol.genSolar| == |lp.demand| &&
    |sol.loadShed| == |lp.demand| && |sol.excessCost| == |lp.demand| &&
    (forall s :: 0 <= s < |lp.demand| ==> |sol.genWind[s]| == lp.horizon) &&
    (forall s :: 0 <= s < |lp.demand| ==> |sol.genSolar[s]| == lp.horizon) &&
    (forall s :: 0 <= s < |lp.demand| ==> |sol.loadShed[s]| == lp.horizon)
  }

  /** Every variable lies in its domain, `NonNegativeReals`. */
  predicate NonNegative(lp: TwoStageLp, sol: Solution)
    requires Shaped(lp, sol)
  {
    sol.windCapacity >= 0.0 && sol.solarCapacity >= 0.0 && sol.tCvar >= 0.0 &&
    (forall s, t :: 0 <= s < |lp.demand| && 0 <= t < lp.horizon ==> sol.genWind[s][t] >= 0.0) &&
    (forall s, t :: 0 <= s < |lp.demand| && 0 <= t < lp.horizon ==> sol.genSolar[s][t] >= 0.0) &&
    (forall s, t :: 0 <= s < |lp.demand| && 0 <= t < lp.horizon ==> sol.loadShed[s][t] >= 0.0) &&
    (forall s :: 0 <= s < |lp.demand| ==> sol.excessCost[s] >= 0.0)
  }

  /** `wind_gen_limit`: wind generation never exceeds wind capacity. */
  predicate WindGenLimit(lp: TwoStageLp, sol: Solution)
    requires Shaped(lp, sol)
  {
    forall s, t :: 0 <= s < |lp.demand| && 0 <= t < lp.horizon ==> sol.genWind[s][t] <= sol.windCapacity
  }

  /** `solar_gen_limit`: solar generation never exceeds solar capacity. */
  predicate SolarGenLimit(lp: TwoStageLp, sol: Solution)
    requires Shaped(lp, sol)
  {
    forall s, t :: 0 <= s < |lp.demand| && 0 <= t < lp.horizon ==> sol.genSolar[s][t] <= sol.solarCapacity
  }

  /** `demand_constraint`: generation plus shedding covers the demand. */
  predicate DemandConstraint(lp: TwoStageLp, sol: Solution)
    requires WellFormed(lp) && Shaped(lp, sol)
  {
    forall s, t :: 0 <= s < |lp.demand| && 0 <= t < lp.horizon ==>
      lp.demand[s][t] <= sol.genWind[s][t] + sol.genSolar[s][t] + sol.loadShed[s][t]
  }

  /** The capacity cost shared by all scenarios (`invest_cost`). */
  function InvestCost(sol: Solution): real
  {
    sol.windCapacity * CostOfWind + sol.solarCapacity * CostOfSolar
  }

  /** The shedding penalty of one scenario, summed over its time points in
      order (`time_cost`). */
  function TimeCost(shed: seq<real>): real
  {
    if shed == [] then 0.0 else shed[0] * PenaltyOfLoadShed + TimeCost(shed[1..])
  }

  /** `excess_cost_constraint`: each scenario's cost is at least the shared
      investment cost plus that scenario's shedding penalty. */
  predicate ExcessCostConstraint(lp: TwoStageLp, sol: Solution)
    requires Shaped(lp, sol)
  {
    forall s :: 0 <= s < |lp.demand| ==> sol.excessCost[s] >= InvestCost(sol) + TimeCost(sol.loadShed[s])
  }

  /** `cvar_constraint`: no scenario's cost exceeds `t_cvar`. */
  predicate CvarConstraint(lp: TwoStageLp, sol: Solution)
    requires Shaped(lp, sol)
  {
    forall s :: 0 <= s < |lp.demand| ==> sol.excessCost[s] - sol.tCvar <= 0.0
  }

  /** The solution satisfies every domain and every constraint of the
      program built for `lp`. */
  predicate Feasible(lp: TwoStageLp, sol: Solution)
  {
    WellFormed(lp) && Shaped(lp, sol) && NonNegative(lp, sol) &&
    WindGenLimit(lp, sol) && SolarGenLimit(lp, sol) && DemandConstraint(lp, sol) &&
    ExcessCostConstraint(lp, sol) && CvarConstraint(lp, sol)
  }

  /** Sum of a sequence of reals. */
  function Sum(xs: seq<real>): real
  {
    if xs == [] then 0.0 else xs[0] + Sum(xs[1..])
  }

  /** Largest value of a non-empty sequence (Python's `max`). */
  function Max(xs: seq<real>): (m: real)
    requires |xs| >= 1
    ensures forall i :: 0 <= i < |xs| ==> xs[i] <= m
    ensures exists i :: 0 <= i < |xs| && xs[i] == m
  {
    if |xs| == 1 then xs[0]
    else
      var rest := Max(xs[1..]);
      assert forall i :: 1 <= i < |xs| ==> xs[i] == xs[1..][i - 1];
      if xs[0] >= rest then xs[0] else rest
  }

  /** Average of a non-empty sequence (`avg_cost`, a sum divided by the
      number of scenarios). */
  function Mean(xs: seq<real>): real
    requires |xs| >= 1
  {
    Sum(xs) / (|xs| as real)
  }

  /** The value minimised over the scenario costs: average cost plus
      `lambda_risk` times the worst scenario's cost (`objective_rule`). */
  function Objective(costs: seq<real>): real
    requires |costs| >= 1
  {
    Mean(costs) + LambdaRisk * Max(costs)
  }

  /** Builds the program from a demand series: partitions the series into
      `numScenarios` scenarios of `|data| / numScenarios` time points, which
      become the demand parameter over the scenario and time index sets. */
  method BuildTwoStageModel(data: seq<real>, numScenarios: nat) returns (lp: TwoStageLp)
    requires numScenarios >= 1
    ensures WellFormed(lp)
    ensures lp.horizon == |data| / numScenarios
    ensures Scenarios.IsPartition(data, numScenarios, lp.horizon, lp.demand)
  {
    var scenarios, chunkSize := Scenarios.SplitScenarios(data, numScenarios);
    lp := TwoStageLp(scenarios, chunkSize);
  }

  // ---------------------------------------------------------------------
  // Sums, means and maxima

  /** The shedding penalty is the penalty rate times the total shed. */
  lemma {:induction false} TimeCostIsPenalisedShed(shed: seq<real>)
    ensures TimeCost(shed) == PenaltyOfLoadShed * Sum(shed)
  {
    if shed != [] {
      TimeCostIsPenalisedShed(shed[1..]);
    }
  }

  /** A sum of values that are all at least `b` is at least `|xs| * b`. */
  lemma {:induction false} SumAtLeast(xs: seq<real>, b: real)
    requires forall i :: 0 <= i < |xs| ==> b <= xs[i]
    ensures (|xs| as real) * b <= Sum(xs)
  {
    if xs != [] {
      assert forall i :: 0 <= i < |xs[1..]| ==> xs[1..][i] == xs[i + 1];
      SumAtLeast(xs[1..], b);
    }
  }

  /** A sum of values that are all at most `b` is at most `|xs| * b`. */
  lemma {:induction false} SumAtMost(xs: seq<real>, b: real)
    requires forall i :: 0 <= i < |xs| ==> xs[i] <= b
    ensures Sum(xs) <= (|xs| as real) * b
  {
    if xs != [] {
      assert forall i :: 0 <= i < |xs[1..]| ==> xs[1..][i] == xs[i + 1];
      SumAtMost(xs[1..], b);
    }
  }

  /** Dividing `n * lo <= a` by a positive `n`. */
  lemma DivideLower(a: real, n: real, lo: real)
    requires n > 0.0 && n * lo <= a
    ensures lo <= a / n
  {
  }

  /** Dividing `a <= n * hi` by a positive `n`. */
  lemma DivideUpper(a: real, n: real, hi: real)
    requires n > 0.0 && a <= n * hi
    ensures a / n <= hi
  {
  }

  /** The average is at least any common lower bound of the values. */
  lemma MeanAtLeast(xs: seq<real>, b: real)
    requires |xs| >= 1
    requires forall i :: 0 <= i < |xs| ==> b <= xs[i]
    ensures b <= Mean(xs)
  {
    var n := |xs| as real;
    assert n * b <= Sum(xs) by {
      SumAtLeast(xs, b);
    }
    DivideLower(Sum(xs), n, b);
  }

  /** The average is at most any common upper bound of the values. */
  lemma MeanAtMost(xs: seq<real>, b: real)
    requires |xs| >= 1
    requires forall i :: 0 <= i < |xs| ==> xs[i] <= b
    ensures Mean(xs) <= b
  {
    var n := |xs| as real;
    assert Sum(xs) <= n * b by {
      SumAtMost(xs, b);
    }
    DivideUpper(Sum(xs), n, b);
  }

  // ---------------------------------------------------------------------
  // Consequences of the constraints

  /** In a feasible solution generation stays within capacity, so whatever
      demand exceeds the two capacities together must be shed. */
  lemma GenerationWithinCapacity(lp: TwoStageLp, sol: Solution, s: nat, t: nat)
    requires Feasible(lp, sol)
    requires s < |lp.demand| && t < lp.horizon
    ensures sol.genWind[s][t] <= sol.windCapacity
    ensures sol.genSolar[s][t] <= sol.solarCapacity
    ensures sol.loadShed[s][t] >= lp.demand[s][t] - sol.windCapacity - sol.solarCapacity
  {
  }

  /** In a feasible solution each scenario's cost is at least the investment
      cost plus 2000 times that scenario's total shed, hence at least the
      shared investment cost. */
  lemma ScenarioCostLowerBound(lp: TwoStageLp, sol: Solution, s: nat)
    requires Feasible(lp, sol)
    requires s < |lp.demand|
    ensures sol.excessCost[s] >= CostOfWind * sol.windCapacity + CostOfSolar * sol.solarCapacity
                                 + PenaltyOfLoadShed * Sum(sol.loadShed[s])
    ensures sol.excessCost[s] >= InvestCost(sol) >= 0.0
  {
    var shed := sol.loadShed[s];
    TimeCostIsPenalisedShed(shed);
    SumAtLeast(shed, 0.0);
  }

  /** In a feasible solution `t_cvar` bounds every scenario cost, so it is at
      least the worst cost, which is at least the average cost. */
  lemma CvarThresholdBoundsCosts(lp: TwoStageLp, sol: Solution)
    requires Feasible(lp, sol)
    ensures Mean(sol.excessCost) <= Max(sol.excessCost) <= sol.tCvar
  {
    MeanAtMost(sol.excessCost, Max(sol.excessCost));
  }

  /** The objective of a feasible solution lies between `1 + lambda_risk`
      times the investment cost (so it is never negative) and
      `1 + lambda_risk` times `t_cvar`. */
  lemma ObjectiveBounds(lp: TwoStageLp, sol: Solution)
    requires Feasible(lp, sol)
    ensures 0.0 <= (1.0 + LambdaRisk) * InvestCost(sol) <= Objective(sol.excessCost)
    ensures Objective(sol.excessCost) <= (1.0 + LambdaRisk) * sol.tCvar
  {
    var costs := sol.excessCost;
    forall s | 0 <= s < |costs|
      ensures InvestCost(sol) <= costs[s]
    {
      ScenarioCostLowerBound(lp, sol, s);
    }
    ScenarioCostLowerBound(lp, sol, 0);
    MeanAtLeast(costs, InvestCost(sol));
    MeanAtMost(costs, Max(costs));
    CvarThresholdBoundsCosts(lp, sol);
  }

  // ---------------------------------------------------------------------
  // The program is always feasible

  /** A grid of zeros with the shape of `d`. */
  function ZeroGrid(d: seq<seq<real>>): (g: seq<seq<real>>)
    ensures |g| == |d|
    ensures forall s :: 0 <= s < |d| ==> |g[s]| == |d[s]|
    ensures forall s, t :: 0 <= s < |g| && 0 <= t < |g[s]| ==> g[s][t] == 0.0
  {
    seq(|d|, s requires 0 <= s < |d| => seq(|d[s]|, t => 0.0))
  }

  /** The scenario costs of the solution that sheds everything: each
      scenario's shedding penalty. */
  function ShedCosts(demand: seq<seq<real>>): (costs: seq<real>)
    ensures |costs| == |demand|
  {
    seq(|demand|, s requires 0 <= s < |demand| => TimeCost(demand[s]))
  }

  /** The solution that builds nothing and sheds all demand: zero capacities
      and generation, `load_shed = demand`, each scenario's cost equal to its
      shedding penalty, and `t_cvar` the largest of those costs. */
  function ShedEverything(lp: TwoStageLp): Solution
    requires WellFormed(lp)
  {
    var costs := ShedCosts(lp.demand);
    Solution(0.0, 0.0, ZeroGrid(lp.demand), ZeroGrid(lp.demand), lp.demand, costs, Max(costs))
  }

  /** For nonnegative demand, each scenario's cost when shedding everything
      is 2000 times its total demand, which is nonnegative. */
  lemma ShedCostsArePenalisedDemand(demand: seq<seq<real>>)
    requires forall s, t :: 0 <= s < |demand| && 0 <= t < |demand[s]| ==> demand[s][t] >= 0.0
    ensures forall s :: 0 <= s < |demand| ==>
              ShedCosts(demand)[s] == PenaltyOfLoadShed * Sum(demand[s]) >= 0.0
  {
    forall s | 0 <= s < |demand|
      ensures ShedCosts(demand)[s] == PenaltyOfLoadShed * Sum(demand[s]) >= 0.0
    {
      TimeCostIsPenalisedShed(demand[s]);
      SumAtLeast(demand[s], 0.0);
    }
  }

  /** For nonnegative demand, shedding everything satisfies every domain and
      every constraint: the program is never infeasible. Each scenario's cost
      in that solution is 2000 times its total demand. */
  lemma ShedEverythingFeasible(lp: TwoStageLp)
    requires WellFormed(lp)
    requires forall s, t :: 0 <= s < |lp.demand| && 0 <= t < lp.horizon ==> lp.demand[s][t] >= 0.0
    ensures var sol := ShedEverything(lp);
      Feasible(lp, sol) &&
      sol.windCapacity == 0.0 && sol.solarCapacity == 0.0 &&
      sol.loadShed == lp.demand &&
      (forall s :: 0 <= s < |lp.demand| ==> sol.excessCost[s] == PenaltyOfLoadShed * Sum(lp.demand[s])) &&
      sol.tCvar == Max(sol.excessCost)
  {
    var sol := ShedEverything(lp);
    var costs := sol.excessCost;
    ShedCostsArePenalisedDemand(lp.demand);
    assert Shaped(lp, sol);
    assert sol.tCvar >= 0.0 by {
      assert costs[0] <= Max(costs);
    }
    assert NonNegative(lp, sol);
    assert WindGenLimit(lp, sol) && SolarGenLimit(lp, sol);
    assert DemandConstraint(lp, sol);
    assert ExcessCostConstraint(lp, sol);
    assert CvarConstraint(lp, sol);
  }
}
