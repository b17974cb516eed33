/**
  The value fetcher the coverage axis uses to learn how much complexity is
  expected to be covered by tests: the resource's complexity minus the
  complexity of code no test reaches.
 */
module ValueFetcher {
  import opened Measures

  /** A fetcher reads one derived value from a snapshot, or declines. */
  type Fetcher = Snapshot -> Calc

  /**
    The complexity to cover. It declines exactly when the resource has no
    complexity; otherwise adding back the not-covered complexity (zero when
    absent) gives the resource's complexity. Nothing clamps the difference.
   */
  function ComplexityToCover(s: Snapshot): (r: Calc)
    ensures r.NoCalculation? <==> !HasValue(s, Complexity)
    ensures r.Computed? ==>
      r.value + ValueOr(s, NotCoveredComplexity, 0.0) == Get(s, Complexity).value
  {
    match Get(s, Complexity)
    case None => NoCalculation
    case Some(complexity) =>
      match Get(s, NotCoveredComplexity)
      case None => Computed(complexity)
      case Some(notCovered) => Computed(complexity - notCovered)
  }

  /** Without a not-covered measure, the complexity to cover is the whole complexity. */
  lemma AllComplexityToCoverWithoutNotCovered(s: Snapshot)
    requires HasValue(s, Complexity) && !HasValue(s, NotCoveredComplexity)
    ensures ComplexityToCover(s) == Computed(Get(s, Complexity).value)
  {
  }

  /** The difference is not clamped: more uncovered than total complexity gives a negative value. */
  lemma NegativeWhenNotCoveredExceedsComplexity(s: Snapshot)
    requires HasValue(s, Complexity) && HasValue(s, NotCoveredComplexity)
    requires Get(s, NotCoveredComplexity).value > Get(s, Complexity).value
    ensures ComplexityToCover(s).Computed? && ComplexityToCover(s).value < 0.0
  {
  }

  /** Only the complexity and not-covered-complexity measures matter. */
  lemma ReadsOnlyComplexityMeasures(s: Snapshot, t: Snapshot)
    requires Get(s, Complexity) == Get(t, Complexity)
    requires Get(s, NotCoveredComplexity) == Get(t, NotCoveredComplexity)
    ensures ComplexityToCover(s) == ComplexityToCover(t)
  {
  }

  /** The three situations exercised by the fetcher's unit tests. */
  lemma FetcherExamples()
    ensures ComplexityToCover(map[]) == NoCalculation
    ensures ComplexityToCover(map[Complexity := Some(10.0)]) == Computed(10.0)
    ensures ComplexityToCover(map[Complexity := Some(10.0), NotCoveredComplexity := Some(3.0)])
            == Computed(7.0)
  {
  }
}
