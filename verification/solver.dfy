/** The status check of `solve_model`. The solve itself is done by an outside
    LP solver; the termination condition it hands back is classified into the
    two messages the function reports. */
module SolverStatus {
  /** Termination conditions an LP solver may report. The common cases are
      named; every other condition of the solver library is `Other`. */
  datatype TerminationCondition =
    | Optimal
    | Feasible
    | GloballyOptimal
    | LocallyOptimal
    | Infeasible
    | Unbounded
    | InfeasibleOrUnbounded
    | MaxTimeLimit
    | MaxIterations
    | SolverFailure
    | Other

  /** What `solve_model` reports once the solver returns. */
  datatype SolveMessage =
    | FinishedFeasibleOrOptimal
    | FinishedWithStatus(condition: TerminationCondition)

  /** Classifies a termination condition. Only an exact `optimal` or
      `feasible` counts as success; every other condition is reported with
      its own value, so distinct failures give distinct reports. */
  function Report(condition: TerminationCondition): (m: SolveMessage)
    ensures m == FinishedFeasibleOrOptimal <==> condition in {Optimal, Feasible}
    ensures m != FinishedFeasibleOrOptimal ==> m == FinishedWithStatus(condition)
  {
    match condition
    case Optimal => FinishedFeasibleOrOptimal
    case Feasible => FinishedFeasibleOrOptimal
    case _ => FinishedWithStatus(condition)
  }

  /** Two runs that fail report the same message only when the solver
      returned the same termination condition. */
  lemma FailureReportsDistinguishConditions(c1: TerminationCondition, c2: TerminationCondition)
    requires Report(c1) == Report(c2)
    requires !(c1 in {Optimal, Feasible})
    ensures c1 == c2
  {
  }

  /** A solver that reports a globally or locally optimal solution is not
      counted as a success by the status check, which compares for exact
      `optimal` or `feasible` only. */
  lemma OtherOptimalityReportsAreFailures()
    ensures Report(GloballyOptimal) == FinishedWithStatus(GloballyOptimal)
    ensures Report(LocallyOptimal) == FinishedWithStatus(LocallyOptimal)
  {
  }
}
