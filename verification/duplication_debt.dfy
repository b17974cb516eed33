/**
  The duplication axis, in its density-based form: the possible debt treats
  every block of lines as a duplicated block to fix, and the actual debt is
  the duplicated-lines share of it.
 */
module DuplicationDebt {
  import opened Measures
  import opened Settings

  /** A duplicated block is reckoned at 50 lines. */
  const NUMBER_OF_LINES_PER_BLOCK: int := 50

  /**
    Possible debt: the resource's lines cut into blocks, at
    `costDuplicatedBlocks` hours per block. Zero without a line count; this
    axis never declines.
   */
  function PossibleDebt(s: Snapshot, cfg: Config): (r: real)
    ensures !HasValue(s, Lines) ==> r == 0.0
    ensures r * HOURS_PER_DAY * NUMBER_OF_LINES_PER_BLOCK as real
            == ValueOr(s, Lines, 0.0) * cfg.costDuplicatedBlocks
  {
    match Get(s, Lines)
    case None => 0.0
    case Some(lines) =>
      Days(lines / NUMBER_OF_LINES_PER_BLOCK as real, cfg.costDuplicatedBlocks)
  }

  /**
    Actual debt: the duplicated-lines density, as a fraction, of the possible
    debt. Zero without a density.
   */
  function ActualDebt(s: Snapshot, cfg: Config): (r: real)
    ensures !HasValue(s, DuplicatedLinesDensity) ==> r == 0.0
    ensures r * 100.0 == ValueOr(s, DuplicatedLinesDensity, 0.0) * PossibleDebt(s, cfg)
  {
    match Get(s, DuplicatedLinesDensity)
    case None => 0.0
    case Some(density) => density / 100.0 * PossibleDebt(s, cfg)
  }

  /** Without a line count there is no duplication debt, whatever the density. */
  lemma NoLinesNoDebt(s: Snapshot, cfg: Config)
    requires !HasValue(s, Lines)
    ensures ActualDebt(s, cfg) == 0.0 && PossibleDebt(s, cfg) == 0.0
  {
  }

  /** A density between 0 and 100 keeps the actual debt between zero and a non-negative possible debt. */
  lemma ActualWithinPossible(s: Snapshot, cfg: Config)
    requires HasValue(s, DuplicatedLinesDensity)
    requires 0.0 <= Get(s, DuplicatedLinesDensity).value <= 100.0
    requires PossibleDebt(s, cfg) >= 0.0
    ensures 0.0 <= ActualDebt(s, cfg) <= PossibleDebt(s, cfg)
  {
    var density := Get(s, DuplicatedLinesDensity).value;
    var possible := PossibleDebt(s, cfg);
    assert density / 100.0 * possible <= 1.0 * possible by {
      assert density / 100.0 <= 1.0;
    }
  }

  /** A resource of 345 lines at default rates: 6.9 blocks of two hours, spread over 8-hour days. */
  lemma DuplicationExamples(cfg: Config)
    requires cfg == DefaultConfig(cfg.maxComplexityOfFile)
    ensures PossibleDebt(map[Lines := Some(345.0)], cfg) == 345.0 / 50.0 * 2.0 / 8.0
    ensures ActualDebt(map[Lines := Some(345.0), DuplicatedLinesDensity := Some(30.0)], cfg)
            == 0.3 * (345.0 / 50.0 * 2.0 / 8.0)
    ensures PossibleDebt(map[], cfg) == 0.0
  {
  }
}
