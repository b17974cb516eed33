/**
  The complexity axis: the debt of methods whose complexity exceeds the
  per-method ceiling, against a ceiling made of the file's complexity
  overrun.
 */
module ComplexityDebt {
  import opened Measures
  import opened Settings
  import ValueFetcher

  /**
    Actual debt: every unit of complexity above the per-method ceiling costs
    `costMethodComplexity` hours. With no such measure the debt is zero; this
    never declines.
   */
  function ActualDebt(s: Snapshot, cfg: Config): (r: real)
    ensures !HasValue(s, DistanceComplexityLength) ==> r == 0.0
    ensures r * HOURS_PER_DAY
            == ValueOr(s, DistanceComplexityLength, 0.0) * cfg.costMethodComplexity
  {
    match Get(s, DistanceComplexityLength)
    case None => 0.0
    case Some(distance) => Days(distance, cfg.costMethodComplexity)
  }

  /**
    The calculator's own reading of the complexity to cover (it repeats the
    fetcher's computation rather than calling it).
   */
  function ComplexityToBeCovered(s: Snapshot): Calc
  {
    if !HasValue(s, Complexity) then NoCalculation
    else
      var complexity := Get(s, Complexity).value;
      if HasValue(s, NotCoveredComplexity)
      then Computed(complexity - Get(s, NotCoveredComplexity).value)
      else Computed(complexity)
  }

  /**
    Possible debt: the overrun of the complexity to cover over the file
    ceiling, at `costMethodComplexity` hours per unit. It declines when the
    resource has no complexity or when the overrun is strictly negative; an
    overrun of exactly zero is a computed zero.
   */
  function PossibleDebt(s: Snapshot, cfg: Config): (r: Calc)
    ensures r.NoCalculation? <==>
      || !HasValue(s, Complexity)
      || Get(s, Complexity).value - ValueOr(s, NotCoveredComplexity, 0.0)
         < cfg.maxComplexityOfFile as real
    ensures r.Computed? ==>
      r.value * HOURS_PER_DAY
      == (Get(s, Complexity).value - ValueOr(s, NotCoveredComplexity, 0.0)
          - cfg.maxComplexityOfFile as real) * cfg.costMethodComplexity
    ensures r.Computed? && cfg.costMethodComplexity >= 0.0 ==> r.value >= 0.0
  {
    match ComplexityToBeCovered(s)
    case NoCalculation => NoCalculation
    case Computed(toCover) =>
      var overrun := toCover - cfg.maxComplexityOfFile as real;
      if overrun < 0.0 then NoCalculation
      else Computed(Days(overrun, cfg.costMethodComplexity))
  }

  /** The calculator's reading of the complexity to cover agrees with the fetcher on every snapshot. */
  lemma ComplexityToBeCoveredAgreesWithFetcher(s: Snapshot)
    ensures ComplexityToBeCovered(s) == ValueFetcher.ComplexityToCover(s)
  {
  }

  /** Possible debt stated through the fetcher: the fetcher's value, less the ceiling, in days. */
  lemma PossibleDebtThroughFetcher(s: Snapshot, cfg: Config)
    ensures var c := ValueFetcher.ComplexityToCover(s);
            PossibleDebt(s, cfg)
            == if c.NoCalculation? || c.value < cfg.maxComplexityOfFile as real then NoCalculation
               else Computed(Days(c.value - cfg.maxComplexityOfFile as real, cfg.costMethodComplexity))
  {
    ComplexityToBeCoveredAgreesWithFetcher(s);
  }

  /** A resource exactly at the ceiling has a computed possible debt of zero. */
  lemma ZeroOverrunIsZeroDebt(s: Snapshot, cfg: Config)
    requires HasValue(s, Complexity)
    requires Get(s, Complexity).value - ValueOr(s, NotCoveredComplexity, 0.0)
             == cfg.maxComplexityOfFile as real
    ensures PossibleDebt(s, cfg) == Computed(0.0)
  {
  }

  /** The situations exercised by the calculator's unit tests, for any ceiling, at default rates. */
  lemma ComplexityExamples(ceiling: int)
    ensures var cfg := DefaultConfig(ceiling);
            && PossibleDebt(map[], cfg) == NoCalculation
            && PossibleDebt(map[Complexity := Some(ceiling as real + 12.0)], cfg)
               == Computed(12.0 * 0.2 / 8.0)
            && PossibleDebt(map[Complexity := Some(ceiling as real + 12.0),
                                NotCoveredComplexity := Some(2.0)], cfg)
               == Computed((12.0 - 2.0) * 0.2 / 8.0)
            && PossibleDebt(map[Complexity := Some(ceiling as real - 1.0)], cfg) == NoCalculation
            && ActualDebt(map[DistanceComplexityLength := Some(12.0)], cfg) == 12.0 * 0.2 / 8.0
  {
  }
}
