# Two-stage renewable portfolio model, in Dafny

This project models the optimisation core of a renewable-portfolio sizing
tool. The tool decides wind and solar capacity under uncertain electricity
demand. It cuts a historical demand series into equally weighted scenarios.
It then states a two-stage linear program: capacities are chosen once for all
scenarios, and generation and load shedding are chosen per scenario and time
point. Each scenario gets a cost, and the objective adds a risk term for the
worst scenario.

The model has three modules:

- `Scenarios` (`scenarios.dfy`): the partitioning loop of
  `build_two_stage_model`. `SplitScenarios` is the loop, proved against the
  specification function `Blocks`, the list the loop has after `k` rounds.
- `Formulation` (`formulation.dfy`): the program itself. `TwoStageLp` holds
  the demand parameter over scenarios and time points. `Solution` holds a
  value for every decision variable. `Feasible` conjoins the variable domains
  with the five constraint families of the source. `Objective` is evaluated
  on a candidate solution's scenario costs. The lemmas state what every
  feasible solution satisfies, and that one explicit solution is always
  feasible.
- `SolverStatus` (`solver.dfy`): the termination-condition check of
  `solve_model`.

The cost constants are those of the source: 1000 per MW of wind, 800 per MW
of solar, a shedding penalty of 2000 and a risk weight of 0.3. All quantities
are exact `real`s.

The code validates none of its inputs:

- The code raises no error when the series is shorter than the scenario
  count. `chunk_size` is then 0 and every scenario is empty.
  `SplitScenarios` allows this case.
- The code never reads `alpha_cvar`, so it is not validated.
- `num_scenarios` is a natural number of at least 1, stated as a `requires`
  clause. A value of 0 divides by zero at `scr/model.py:30`. A negative value
  leaves the scenario range empty, and `max` over no scenario costs fails at
  `scr/model.py:102`.

The program's data is the datatype `TwoStageLp` (the demand parameter over
the scenario and time index sets of `scr/model.py:43-52`). A candidate value
for every decision variable of `scr/model.py:56-66` is the datatype
`Solution`.

The "CVaR" constraint of the source bounds every scenario cost by `t_cvar`.
This is a worst-case threshold, not the textbook CVaR linearisation, and it
is modelled as written.

## Model

| member | source | states |
|---|---|---|
| `Scenarios.SplitScenarios` | scr/model.py:29-34 | Sets `chunk_size = len(data) // num_scenarios` and returns a list satisfying `Scenarios.IsPartition`: exactly `num_scenarios` scenarios of `chunk_size` values each, value `t` of scenario `i` being `data[i*chunk_size + t]` (through `PartitionValueAt`). The loop invariant is that after `i` rounds the list is `Blocks(data, i, chunk_size)`. |
| `Scenarios.Blocks` | scr/model.py:32-34 | After `k` rounds the scenario list has exactly `k` entries. |
| `Scenarios.OffsetIsProduct` | scr/model.py:33 | Block `i` starts at index `i*chunk`. |
| `Scenarios.OffsetMonotone` | scr/model.py:32-33 | A later block never starts before an earlier one, so every slice start stays within `num_scenarios * chunk`. |
| `Scenarios.BlockAt` | scr/model.py:33 | Block `i` is exactly the `chunk` series values that start at block `i`'s offset, and that slice lies inside the series. Blocks are contiguous and in order. |
| `Scenarios.BlocksShape` | scr/model.py:29-34 | The first `k` blocks form a partition: `k` blocks of `chunk` values, value `t` of block `i` taken from the series at block `i`'s offset plus `t`. |
| `Scenarios.PartitionValueAt` | scr/model.py:33 | In a partition, value `t` of scenario `i` is `data[i*chunk + t]`, an index inside the series. |
| `Scenarios.BlocksCoverPrefix` | scr/model.py:30-34 | The first `k` blocks, read back to back, are exactly `data[:k*chunk]`. |
| `Scenarios.ChunkSizeBounds` | scr/model.py:30 | `num_scenarios * (L // num_scenarios) <= L`, and the remainder is smaller than `num_scenarios`. |
| `Scenarios.PartitionIsBlocks` | scr/model.py:29-34 | A partition is unique: any list that is a partition of the series with block length `chunk` is `Blocks(data, k, chunk)`. |
| `Scenarios.PartitionUsesPrefix` | scr/model.py:30-34 | The scenarios of a partition, concatenated, are exactly the first `num_scenarios * chunk_size` values. Fewer than `num_scenarios` trailing values are dropped. |
| `Scenarios.PartitionExample` | scr/model.py:29-34 | `[10,20,30,40,50,60]` in 3 scenarios gives `[10,20]`, `[30,40]`, `[50,60]`. |
| `Formulation.BuildTwoStageModel` | scr/model.py:29-52 | The program's demand parameter has `num_scenarios` scenarios over a time index of `len(data) // num_scenarios` points. `demand[s][t]` is `data[s*T + t]` (through `PartitionValueAt`), as `demand_init` reads it. |
| `Formulation.WellFormed` | scr/model.py:43-52 | The demand parameter has at least one scenario, and every scenario has one value per time point of the shared time index. |
| `Formulation.Shaped` | scr/model.py:56-66 | The solution has a value for every index the program declares: generation and shedding for each scenario and time point, and one cost per scenario. |
| `Formulation.NonNegative` | scr/model.py:56-66 | Every variable lies in its `NonNegativeReals` domain: both capacities, generation, shedding, every scenario cost and `t_cvar`. |
| `Formulation.WindGenLimit` | scr/model.py:69-72 | `wind_gen_limit`: for every scenario and time point, `gen_wind[s,t] <= wind_capacity`. |
| `Formulation.SolarGenLimit` | scr/model.py:74-76 | `solar_gen_limit`: for every scenario and time point, `gen_solar[s,t] <= solar_capacity`. |
| `Formulation.DemandConstraint` | scr/model.py:79-81 | `demand_constraint`: for every scenario and time point, `demand[s,t] <= gen_wind[s,t] + gen_solar[s,t] + load_shed[s,t]`. |
| `Formulation.InvestCost` | scr/model.py:88 | `invest_cost` is `wind_capacity * 1000 + solar_capacity * 800`, shared by every scenario. |
| `Formulation.TimeCost` | scr/model.py:84-87 | `time_cost` of a scenario is the sum over its time points of `load_shed[s,t] * 2000`. `TimeCostIsPenalisedShed` gives its closed form. |
| `Formulation.ExcessCostConstraint` | scr/model.py:86-90 | `excess_cost_constraint`: every scenario's cost is at least `invest_cost + time_cost` of that scenario. |
| `Formulation.CvarConstraint` | scr/model.py:93-95 | `cvar_constraint`: for every scenario, `excess_cost[s] - t_cvar <= 0`. |
| `Formulation.Feasible` | scr/model.py:56-95 | A solution is feasible exactly when it has the declared shape and meets every domain and all five constraint families. |
| `Formulation.Mean` | scr/model.py:101 | `avg_cost`: the sum of the scenario costs divided by the number of scenarios. `MeanAtLeast` and `MeanAtMost` bound it. |
| `Formulation.Objective` | scr/model.py:100-103 | `objective_rule` on given scenario costs: their average plus `0.3` times their maximum. `ObjectiveBounds` bounds it on feasible solutions. |
| `Formulation.ShedEverything` | scr/model.py:56-95 | The candidate that builds nothing and sheds all demand, with `t_cvar` the largest scenario cost. `ShedEverythingFeasible` proves it feasible. |
| `Formulation.Max` | scr/model.py:102 | The result is at least every scenario cost and equal to one of them. |
| `Formulation.TimeCostIsPenalisedShed` | scr/model.py:84-87 | A scenario's `time_cost` is 2000 times its total load shed. |
| `Formulation.MeanAtLeast` | scr/model.py:101 | The average cost is at least any common lower bound of the scenario costs. |
| `Formulation.MeanAtMost` | scr/model.py:101 | The average cost is at most any common upper bound of the scenario costs. |
| `Formulation.GenerationWithinCapacity` | scr/model.py:69-81 | In a feasible solution, `gen_wind[s,t] <= wind_capacity` and `gen_solar[s,t] <= solar_capacity`. Hence `load_shed[s,t] >= demand[s,t] - wind_capacity - solar_capacity`. |
| `Formulation.ScenarioCostLowerBound` | scr/model.py:84-90 | In a feasible solution, `excess_cost[s] >= 1000*wind_capacity + 800*solar_capacity + 2000*sum_t load_shed[s,t]`. This is at least the investment cost, which is nonnegative. |
| `Formulation.CvarThresholdBoundsCosts` | scr/model.py:93-102 | In a feasible solution, `mean(excess_cost) <= max(excess_cost) <= t_cvar`. |
| `Formulation.ObjectiveBounds` | scr/model.py:98-103 | For a feasible solution, the objective `mean + 0.3*max` of the scenario costs lies between `1.3 * invest_cost` and `1.3 * t_cvar`. The lower bound is nonnegative. |
| `Formulation.ShedCostsArePenalisedDemand` | scr/model.py:84-89 | When all demand is shed, each scenario's shedding penalty is 2000 times its total demand, and it is nonnegative for nonnegative demand. |
| `Formulation.ShedEverythingFeasible` | scr/model.py:56-95 | For nonnegative demand, one solution satisfies every domain and every constraint: zero capacities and generation, `load_shed = demand`, `excess_cost[s] = 2000 * sum_t demand[s,t]` and `t_cvar = max_s excess_cost[s]`. So the program is never infeasible. |
| `SolverStatus.Report` | scr/model.py:115-119 | A solve is reported as successful exactly when the termination condition is `optimal` or `feasible`. Any other condition is reported with its own value. |
| `SolverStatus.FailureReportsDistinguishConditions` | scr/model.py:118-119 | Two failed solves give the same report only if their termination conditions are equal. The conditions folded into `Other` (the solver library's `unknown`, `error`, `invalidProblem` and the rest) are not told apart, although the source prints each one with its own value. |
| `SolverStatus.OtherOptimalityReportsAreFailures` | scr/model.py:115-116 | `globallyOptimal` and `locallyOptimal` are not counted as success, because `solve_model` compares for equality with `optimal` and `feasible` only. |

## Left out

- Data retrieval from the EIA web API and writing the CSV file (`scr/data_fetch.py`): network and file I/O.
- The driver in `scr/main.py`: it reads a CSV, calls the two functions and prints values. It has no logic of its own.
- The LP solve itself (`SolverFactory("glpk").solve`): this is an outside solver. Optimality is not modelled, so no property of an optimal solution is stated.
- Pyomo object construction (`ConcreteModel`, `Param`, `Var`, `RangeSet`, `Constraint`, `Suffix`): only the mathematical content of each rule is modelled.
- `Formulation.Objective` is a value on a candidate solution, not a linear expression of the program. The source applies Python's `max` to solver variables, which is not a linear expression and which Pyomo cannot evaluate while building the model.
- Costs are module constants. The source makes `cost_of_wind` and `cost_of_solar` mutable parameters, but nothing changes them.
- The unused `bigM` constant and the unused `alpha_cvar` argument: neither affects behaviour.
- Floating-point rounding and solver tolerances: all quantities are exact reals.
- The text of the two printed status messages: `SolverStatus.Report` models which message is chosen, not its printing.
- `SolverStatus.TerminationCondition` names the conditions that matter to `solve_model`'s status check and folds the rest of the solver library's conditions into `Other`.
- `SolverStatus.FailureReportsDistinguishConditions` says nothing about two conditions both folded into `Other`, although `scr/model.py:119` prints each of them differently.
- Timestamps in the demand series: the scenarios use only the demand column, in series order.
- The stray leading spaces at `scr/model.py` lines 43, 66, 87, 101 and 102 would stop the file from parsing. The model follows the evident intent.
