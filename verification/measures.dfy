/**
  Metric keys and the per-resource measure snapshot that the technical-debt
  calculators read. A calculator never writes to the snapshot.
 */
module Measures {

  datatype Option<+T> = None | Some(value: T)

  /** The metric keys the technical-debt engine reads (first six) or saves (last four). */
  datatype Metric =
    | Complexity                // cyclomatic complexity of the resource
    | NotCoveredComplexity      // complexity of code that no test covers
    | DistanceComplexityLength  // complexity above the per-method ceiling
    | Coverage                  // line coverage, as a percentage
    | Lines                     // physical lines
    | DuplicatedLinesDensity    // duplicated lines, as a percentage of all lines
    | TechnicalDebt             // debt in currency units
    | TechnicalDebtDays         // debt in developer days
    | TechnicalDebtRatio        // debt as a percentage of the possible debt
    | TechnicalDebtRepartition  // per-axis percentages of the debt

  /**
    The measures of one resource. A key that is missing and a key whose
    measure carries no value (None) are both "absent": the calculators test
    for a usable value, not for the presence of a measure object.
   */
  type Snapshot = map<Metric, Option<real>>

  function Get(s: Snapshot, m: Metric): Option<real>
  {
    if m in s then s[m] else None
  }

  predicate HasValue(s: Snapshot, m: Metric)
  {
    Get(s, m).Some?
  }

  /** The value of `m`, or `default` when it is absent. */
  function ValueOr(s: Snapshot, m: Metric, default: real): real
  {
    match Get(s, m)
    case Some(v) => v
    case None => default
  }

  /**
    The outcome of a computation that may decline to produce a value: the
    NoCalculation signal means "this axis has no ceiling for this resource".
   */
  datatype Calc = Computed(value: real) | NoCalculation
}
