/**
  The coverage axis: the debt of complexity that tests leave uncovered below
  the coverage target. It learns the complexity to cover from a fetcher, so
  that the formula does not depend on how that value is obtained.
 */
module CoverageDebt {
  import opened Measures
  import opened Settings
  import opened ValueFetcher

  /** Full coverage is not a reasonable objective: the target is 80%. */
  const COVERAGE_TARGET: real := 0.8

  /**
    Actual debt: the share of the complexity to cover that falls short of the
    target, at `costUncoveredComplexity` hours per unit. It is zero when the
    resource has no coverage, when the fetcher declines (the signal is
    swallowed), or when coverage meets the target; it never declines.
   */
  function ActualDebt(s: Snapshot, cfg: Config, fetcher: Fetcher): (r: real)
    ensures !HasValue(s, Coverage) || fetcher(s).NoCalculation? ==> r == 0.0
    ensures HasValue(s, Coverage) && fetcher(s).Computed? ==>
      var gap := (COVERAGE_TARGET - Get(s, Coverage).value / 100.0) * fetcher(s).value;
      && (gap <= 0.0 ==> r == 0.0)
      && (gap > 0.0 ==> r * HOURS_PER_DAY == gap * cfg.costUncoveredComplexity)
    ensures cfg.costUncoveredComplexity >= 0.0 ==> r >= 0.0
  {
    if !HasValue(s, Coverage) then 0.0
    else
      match fetcher(s)
      case NoCalculation => 0.0
      case Computed(complexity) =>
        var gap := (COVERAGE_TARGET - Get(s, Coverage).value / 100.0) * complexity;
        Days(if gap > 0.0 then gap else 0.0, cfg.costUncoveredComplexity)
  }

  /**
    Possible debt: the target share of the complexity to cover, as if nothing
    were covered. It declines when the resource has no coverage and passes on
    the fetcher's NoCalculation.
   */
  function PossibleDebt(s: Snapshot, cfg: Config, fetcher: Fetcher): (r: Calc)
    ensures r.NoCalculation? <==> !HasValue(s, Coverage) || fetcher(s).NoCalculation?
    ensures r.Computed? ==>
      r.value * HOURS_PER_DAY
      == COVERAGE_TARGET * fetcher(s).value * cfg.costUncoveredComplexity
  {
    if !HasValue(s, Coverage) then NoCalculation
    else
      match fetcher(s)
      case NoCalculation => NoCalculation
      case Computed(complexity) =>
        Computed(Days(COVERAGE_TARGET * complexity, cfg.costUncoveredComplexity))
  }

  /** The coverage value itself never changes the possible debt, only its presence does. */
  lemma PossibleDebtIgnoresCoverageValue(s: Snapshot, t: Snapshot, cfg: Config, fetcher: Fetcher)
    requires HasValue(s, Coverage) && HasValue(t, Coverage)
    requires fetcher(s) == fetcher(t)
    ensures PossibleDebt(s, cfg, fetcher) == PossibleDebt(t, cfg, fetcher)
  {
  }

  /** Coverage at or above the target leaves no debt on a non-negative complexity. */
  lemma NoDebtAtTarget(s: Snapshot, cfg: Config, fetcher: Fetcher)
    requires HasValue(s, Coverage) && Get(s, Coverage).value / 100.0 >= COVERAGE_TARGET
    requires fetcher(s).Computed? ==> fetcher(s).value >= 0.0
    ensures ActualDebt(s, cfg, fetcher) == 0.0
  {
    if fetcher(s).Computed? {
      var gap := (COVERAGE_TARGET - Get(s, Coverage).value / 100.0) * fetcher(s).value;
      assert gap <= 0.0 by {
        assert COVERAGE_TARGET - Get(s, Coverage).value / 100.0 <= 0.0;
      }
    }
  }

  /**
    On a coverage percentage, complexity and rate that are not negative, the
    actual debt lies between zero and the possible debt.
   */
  lemma ActualWithinPossible(s: Snapshot, cfg: Config, fetcher: Fetcher)
    requires HasValue(s, Coverage) && Get(s, Coverage).value >= 0.0
    requires fetcher(s).Computed? && fetcher(s).value >= 0.0
    requires cfg.costUncoveredComplexity >= 0.0
    ensures PossibleDebt(s, cfg, fetcher).Computed?
    ensures 0.0 <= ActualDebt(s, cfg, fetcher) <= PossibleDebt(s, cfg, fetcher).value
  {
    var c := fetcher(s).value;
    var gap := (COVERAGE_TARGET - Get(s, Coverage).value / 100.0) * c;
    assert gap <= COVERAGE_TARGET * c by {
      assert COVERAGE_TARGET - Get(s, Coverage).value / 100.0 <= COVERAGE_TARGET;
    }
    var clamped := if gap > 0.0 then gap else 0.0;
    assert 0.0 <= clamped <= COVERAGE_TARGET * c;
    assert clamped * cfg.costUncoveredComplexity <= COVERAGE_TARGET * c * cfg.costUncoveredComplexity;
  }

  /** The situations exercised by the calculator's unit tests, with a fetcher that yields 123. */
  lemma CoverageExamples(cfg: Config)
    requires cfg == DefaultConfig(cfg.maxComplexityOfFile)
    ensures var fetcher: Fetcher := _ => Computed(123.0);
            && PossibleDebt(map[], cfg, fetcher) == NoCalculation
            && ActualDebt(map[], cfg, fetcher) == 0.0
            && PossibleDebt(map[Coverage := Some(2.0)], cfg, fetcher)
               == Computed(123.0 * 0.8 * 1.5 / 8.0)
            && ActualDebt(map[Coverage := Some(100.0 * (0.8 + 0.01))], cfg, fetcher) == 0.0
            && ActualDebt(map[Coverage := Some(100.0 * (0.8 - 0.01))], cfg, fetcher)
               == (0.8 - 0.79) * 123.0 * 1.5 / 8.0
  {
  }
}
