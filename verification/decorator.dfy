/**
  The technical-debt decorator: for one resource it runs the axes in order,
  totals their actual and possible debt, and saves the debt in currency and
  in days, the debt ratio when there is a possible debt, and the repartition.
 */
module TechnicalDebtDecorator {
  import opened Measures
  import opened Settings
  import opened Doubles
  import opened Axes
  import opened Repartition

  /** A measure handed to the persistence layer. */
  datatype SavedMeasure =
    | Numeric(metric: Metric, value: real)
    | Properties(metric: Metric, entries: seq<Entry>)

  /** The metrics the decorator declares it generates. */
  function GeneratesMetrics(): seq<Metric>
  {
    [TechnicalDebt, TechnicalDebtDays, TechnicalDebtRatio, TechnicalDebtRepartition]
  }

  /** Running total of actual debt after visiting `axes`, in visiting order. */
  function ActualSoFar(axes: seq<Axis>, s: Snapshot, cfg: Config): real
  {
    if axes == [] then 0.0
    else ActualSoFar(axes[..|axes| - 1], s, cfg) + CountedActual(axes[|axes| - 1], s, cfg)
  }

  /** Running total of possible debt after visiting `axes`, in visiting order. */
  function PossibleSoFar(axes: seq<Axis>, s: Snapshot, cfg: Config): real
  {
    if axes == [] then 0.0
    else PossibleSoFar(axes[..|axes| - 1], s, cfg) + CountedPossible(axes[|axes| - 1], s, cfg)
  }

  /** Repartition built after visiting `axes` against a fixed total. */
  function RepartitionSoFar(axes: seq<Axis>, s: Snapshot, cfg: Config, total: real): seq<Entry>
  {
    if axes == [] then []
    else
      var a := axes[|axes| - 1];
      RepartitionSoFar(axes[..|axes| - 1], s, cfg, total) + Slot(a.Name(), a.ActualDebt(s, cfg), total)
  }

  /** Visiting the whole axis list yields the totals and the repartition of the resource. */
  lemma WholeListVisited(s: Snapshot, cfg: Config, total: real)
    ensures ActualSoFar(AXES, s, cfg) == TotalActual(s, cfg)
    ensures PossibleSoFar(AXES, s, cfg) == TotalPossible(s, cfg)
    ensures RepartitionSoFar(AXES, s, cfg, TotalActual(s, cfg)) == RepartitionOf(s, cfg)
  {
    var t := TotalActual(s, cfg);
    assert AXES[..2] == [ComplexityAxis, CoverageAxis];
    assert AXES[..2][..1] == [ComplexityAxis];
    assert [ComplexityAxis][..0] == [];
    assert ActualSoFar(AXES[..2][..1], s, cfg) == CountedActual(ComplexityAxis, s, cfg);
    assert PossibleSoFar(AXES[..2][..1], s, cfg) == CountedPossible(ComplexityAxis, s, cfg);
    assert RepartitionSoFar(AXES[..2][..1], s, cfg, t)
           == Slot(ComplexityAxis.Name(), ComplexityAxis.ActualDebt(s, cfg), t);
  }

  /** One step of the summing loop adds the next axis's counted debts. */
  lemma SumStep(i: nat, s: Snapshot, cfg: Config)
    requires i < |AXES|
    ensures ActualSoFar(AXES[..i + 1], s, cfg) == ActualSoFar(AXES[..i], s, cfg) + CountedActual(AXES[i], s, cfg)
    ensures PossibleSoFar(AXES[..i + 1], s, cfg) == PossibleSoFar(AXES[..i], s, cfg) + CountedPossible(AXES[i], s, cfg)
  {
    assert AXES[..i + 1][..i] == AXES[..i];
  }

  /** One step of the repartition loop adds the next axis's slot. */
  lemma RepartitionStep(i: nat, s: Snapshot, cfg: Config, total: real)
    requires i < |AXES|
    ensures RepartitionSoFar(AXES[..i + 1], s, cfg, total)
            == AddToRepartition(RepartitionSoFar(AXES[..i], s, cfg, total), AXES[i].Name(),
                                Percentage(AXES[i].ActualDebt(s, cfg), total))
  {
    assert AXES[..i + 1][..i] == AXES[..i];
    var a := AXES[i];
    var before := RepartitionSoFar(AXES[..i], s, cfg, total);
    var p := Percentage(a.ActualDebt(s, cfg), total);
    SlotShape(a.Name(), a.ActualDebt(s, cfg), total);
    if Positive(p) {
      assert before + Slot(a.Name(), a.ActualDebt(s, cfg), total) == before + [Entry(a.Name(), FloorHundredths(p))];
    } else {
      assert before + Slot(a.Name(), a.ActualDebt(s, cfg), total) == before + [];
    }
  }

  /**
    The summing loop: visits the axes in order, asking each for its possible
    debt first and its actual debt second, and skips both when the possible
    debt declines. The sums are the totals of the counted axes; a declining
    axis does not stop the loop.
   */
  method SumDebts(s: Snapshot, cfg: Config) returns (sonarDebt: real, denominatorDensity: real)
    ensures sonarDebt == TotalActual(s, cfg)
    ensures denominatorDensity == TotalPossible(s, cfg)
  {
    sonarDebt := 0.0;
    denominatorDensity := 0.0;
    var i := 0;
    while i < |AXES|
      invariant 0 <= i <= |AXES|
      invariant sonarDebt == ActualSoFar(AXES[..i], s, cfg)
      invariant denominatorDensity == PossibleSoFar(AXES[..i], s, cfg)
    {
      var axis := AXES[i];
      SumStep(i, s, cfg);
      match axis.PossibleDebt(s, cfg) {
        case Computed(possible) =>
          denominatorDensity := denominatorDensity + possible;
          sonarDebt := sonarDebt + axis.ActualDebt(s, cfg);
        case NoCalculation =>
      }
      i := i + 1;
    }
    assert AXES[..i] == AXES;
    WholeListVisited(s, cfg, sonarDebt);
  }

  /**
    The repartition loop: visits every axis in order, counted or not, and
    adds its actual debt as a percentage of `sonarDebt` when positive.
   */
  method BuildRepartition(s: Snapshot, cfg: Config, sonarDebt: real) returns (repartition: seq<Entry>)
    requires sonarDebt == TotalActual(s, cfg)
    ensures repartition == RepartitionOf(s, cfg)
  {
    repartition := [];
    var i := 0;
    while i < |AXES|
      invariant 0 <= i <= |AXES|
      invariant repartition == RepartitionSoFar(AXES[..i], s, cfg, sonarDebt)
    {
      var axis := AXES[i];
      RepartitionStep(i, s, cfg, sonarDebt);
      var value := Times(Quotient(axis.ActualDebt(s, cfg), sonarDebt), 100.0);
      repartition := AddToRepartition(repartition, axis.Name(), value);
      i := i + 1;
    }
    assert AXES[..i] == AXES;
    WholeListVisited(s, cfg, sonarDebt);
  }

  /**
    The measures saved for totals `days` and `possible` and a repartition, in
    saving order: the ratio is saved only for a positive possible debt.
   */
  function SavedMeasures(days: real, possible: real, dailyRate: real, repartition: seq<Entry>)
    : (saved: seq<SavedMeasure>)
    ensures |saved| == if possible > 0.0 then 4 else 3
    ensures saved[0] == Numeric(TechnicalDebt, days * dailyRate)
    ensures saved[1] == Numeric(TechnicalDebtDays, days)
    ensures possible > 0.0 ==> saved[2] == Numeric(TechnicalDebtRatio, days / possible * 100.0)
    ensures saved[|saved| - 1] == Properties(TechnicalDebtRepartition, repartition)
    ensures forall m :: m in saved ==> m.metric in GeneratesMetrics()
  {
    var debt := Numeric(TechnicalDebt, days * dailyRate);
    var inDays := Numeric(TechnicalDebtDays, days);
    var breakdown := Properties(TechnicalDebtRepartition, repartition);
    if possible > 0.0 then [debt, inDays, Numeric(TechnicalDebtRatio, days / possible * 100.0), breakdown]
    else [debt, inDays, breakdown]
  }

  /**
    Decorates one resource. The saved measures are, in order: the debt in
    currency (days times the daily rate) and the debt in days, both always;
    the ratio of actual to possible debt as a percentage, only when the
    possible debt is positive; and the repartition. The totals are those of
    the counted axes, and the repartition is that of every axis against the
    total actual debt.
   */
  method Decorate(s: Snapshot, cfg: Config) returns (saved: seq<SavedMeasure>)
    ensures saved == SavedMeasures(TotalActual(s, cfg), TotalPossible(s, cfg), cfg.dailyRate, RepartitionOf(s, cfg))
    ensures |saved| == if TotalPossible(s, cfg) > 0.0 then 4 else 3
    ensures saved[|saved| - 1] == Properties(TechnicalDebtRepartition, RepartitionOf(s, cfg))
  {
    var sonarDebt, denominatorDensity := SumDebts(s, cfg);
    var repartition := BuildRepartition(s, cfg, sonarDebt);
    saved := SavedMeasures(sonarDebt, denominatorDensity, cfg.dailyRate, repartition);
  }
}
