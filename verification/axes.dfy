/**
  The fixed list of debt axes the decorator runs, their common capabilities
  (name, declared metrics, actual and possible debt), and the debt totals
  over that list.
 */
module Axes {
  import opened Measures
  import opened Settings
  import ValueFetcher
  import ComplexityDebt
  import CoverageDebt
  import DuplicationDebt

  datatype Axis = ComplexityAxis | CoverageAxis | DuplicationAxis {

    /** The label that keys the axis in the repartition. */
    function Name(): string
    {
      match this
      case ComplexityAxis => "Complexity"
      case CoverageAxis => "Coverage"
      case DuplicationAxis => "Duplication"
    }

    /** The metrics the axis declares it reads. */
    function DependsOn(): seq<Metric>
    {
      match this
      case ComplexityAxis => [DistanceComplexityLength]
      case CoverageAxis => [Complexity, Coverage]
      case DuplicationAxis => [DuplicatedLinesDensity, Lines]
    }

    /** The axis's actual debt in days; the coverage axis reads the complexity to cover through the fetcher. */
    function ActualDebt(s: Snapshot, cfg: Config): real
    {
      match this
      case ComplexityAxis => ComplexityDebt.ActualDebt(s, cfg)
      case CoverageAxis => CoverageDebt.ActualDebt(s, cfg, ValueFetcher.ComplexityToCover)
      case DuplicationAxis => DuplicationDebt.ActualDebt(s, cfg)
    }

    /** The axis's possible debt in days, or NoCalculation. */
    function PossibleDebt(s: Snapshot, cfg: Config): Calc
    {
      match this
      case ComplexityAxis => ComplexityDebt.PossibleDebt(s, cfg)
      case CoverageAxis => CoverageDebt.PossibleDebt(s, cfg, ValueFetcher.ComplexityToCover)
      case DuplicationAxis => Computed(DuplicationDebt.PossibleDebt(s, cfg))
    }
  }

  /** The axes in the order the decorator visits them. */
  const AXES: seq<Axis> := [ComplexityAxis, CoverageAxis, DuplicationAxis]

  /**
    An axis is counted when its possible debt is computed. The decorator asks
    for the possible debt first and for the actual debt second, inside one
    handler for NoCalculation, so a declining axis adds to neither total.
   */
  predicate Counted(a: Axis, s: Snapshot, cfg: Config)
  {
    a.PossibleDebt(s, cfg).Computed?
  }

  function CountedActual(a: Axis, s: Snapshot, cfg: Config): real
  {
    if Counted(a, s, cfg) then a.ActualDebt(s, cfg) else 0.0
  }

  function CountedPossible(a: Axis, s: Snapshot, cfg: Config): real
  {
    match a.PossibleDebt(s, cfg)
    case Computed(p) => p
    case NoCalculation => 0.0
  }

  /** Total actual debt: the actual debts of the counted axes. */
  function TotalActual(s: Snapshot, cfg: Config): real
  {
    CountedActual(ComplexityAxis, s, cfg) + CountedActual(CoverageAxis, s, cfg)
    + CountedActual(DuplicationAxis, s, cfg)
  }

  /** Total possible debt: the possible debts that were computed. */
  function TotalPossible(s: Snapshot, cfg: Config): real
  {
    CountedPossible(ComplexityAxis, s, cfg) + CountedPossible(CoverageAxis, s, cfg)
    + CountedPossible(DuplicationAxis, s, cfg)
  }

  /** The declared metrics of a list of axes, in list order. */
  function DependsOnAll(axes: seq<Axis>): (ms: seq<Metric>)
    ensures forall a, m :: a in axes && m in a.DependsOn() ==> m in ms
    ensures forall m :: m in ms ==> exists a :: a in axes && m in a.DependsOn()
  {
    if axes == [] then [] else axes[0].DependsOn() + DependsOnAll(axes[1..])
  }

  /** The metrics the decorator declares it depends on. */
  function DependsOnMetrics(): seq<Metric>
  {
    DependsOnAll(AXES)
  }

  /** Repartition keys are unambiguous: the three axes have three different names. */
  lemma NamesDistinct()
    ensures forall i, j :: 0 <= i < j < |AXES| ==> AXES[i].Name() != AXES[j].Name()
  {
  }

  /**
    The declared dependencies are the axes' lists in order, and they leave
    out the not-covered complexity that both the complexity and the coverage
    axes read.
   */
  lemma DeclaredDependencies()
    ensures DependsOnMetrics()
            == [DistanceComplexityLength, Complexity, Coverage, DuplicatedLinesDensity, Lines]
    ensures NotCoveredComplexity !in DependsOnMetrics()
  {
    assert AXES[1..] == [CoverageAxis, DuplicationAxis];
    assert AXES[1..][1..] == [DuplicationAxis];
  }

  /** Two snapshots that differ only in the undeclared not-covered complexity give different possible debts. */
  lemma UndeclaredMetricChangesTotals()
    ensures var cfg := DefaultConfig(10);
            var s := map[Complexity := Some(20.0)];
            var t := map[Complexity := Some(20.0), NotCoveredComplexity := Some(5.0)];
            TotalPossible(s, cfg) != TotalPossible(t, cfg)
  {
  }

  /** A snapshot whose present values are not negative, with no more uncovered than total complexity. */
  predicate Plausible(s: Snapshot)
  {
    && (forall m :: m in s && s[m].Some? ==> s[m].value >= 0.0)
    && ValueOr(s, NotCoveredComplexity, 0.0) <= ValueOr(s, Complexity, 0.0)
  }

  /** On plausible measures and non-negative rates, every axis's debts are non-negative. */
  lemma DebtsNonNegative(a: Axis, s: Snapshot, cfg: Config)
    requires Plausible(s)
    requires cfg.costMethodComplexity >= 0.0 && cfg.costUncoveredComplexity >= 0.0
    requires cfg.costDuplicatedBlocks >= 0.0
    ensures a.ActualDebt(s, cfg) >= 0.0
    ensures a.PossibleDebt(s, cfg).Computed? ==> a.PossibleDebt(s, cfg).value >= 0.0
  {
    assert ValueOr(s, DistanceComplexityLength, 0.0) >= 0.0;
    assert ValueOr(s, Lines, 0.0) >= 0.0;
    assert ValueOr(s, DuplicatedLinesDensity, 0.0) >= 0.0;
    var c := ValueFetcher.ComplexityToCover(s);
    assert c.Computed? ==> c.value >= 0.0;
    var lines := ValueOr(s, Lines, 0.0);
    var possible := DuplicationDebt.PossibleDebt(s, cfg);
    assert possible * 400.0 == lines * cfg.costDuplicatedBlocks;
    assert possible >= 0.0;
  }

  /** When every axis is counted, the totals are the plain sums over all axes. */
  lemma TotalsWhenAllCounted(s: Snapshot, cfg: Config)
    requires forall a :: a in AXES ==> Counted(a, s, cfg)
    ensures TotalActual(s, cfg)
            == ComplexityAxis.ActualDebt(s, cfg) + CoverageAxis.ActualDebt(s, cfg)
               + DuplicationAxis.ActualDebt(s, cfg)
    ensures TotalPossible(s, cfg)
            == ComplexityAxis.PossibleDebt(s, cfg).value + CoverageAxis.PossibleDebt(s, cfg).value
               + DuplicationAxis.PossibleDebt(s, cfg).value
  {
    assert Counted(AXES[0], s, cfg) && Counted(AXES[1], s, cfg) && Counted(AXES[2], s, cfg);
  }
}
