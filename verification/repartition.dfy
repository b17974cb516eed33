/**
  The debt repartition: each axis's actual debt as a percentage of the total
  actual debt, rounded down to hundredths, listed in axis order for the axes
  whose percentage is positive.
 */
module Repartition {
  import opened Measures
  import opened Settings
  import opened Doubles
  import opened Axes

  /** One key=value pair of the repartition measure. */
  datatype Entry = Entry(key: string, value: Double)

  /**
    actual / total * 100 for one axis. The actual debt is that of every axis,
    counted or not, while the total holds only counted axes; the total may
    be zero, hence a double.
   */
  function Percentage(actual: real, total: real): Double
  {
    Times(Quotient(actual, total), 100.0)
  }

  /** Appends key=floor(value) when value > 0; any other value, NaN included, adds nothing. */
  function AddToRepartition(rep: seq<Entry>, key: string, value: Double): seq<Entry>
  {
    if Positive(value) then rep + [Entry(key, FloorHundredths(value))] else rep
  }

  /** What one axis, with the given actual debt, adds to the repartition. */
  function Slot(key: string, actual: real, total: real): seq<Entry>
  {
    AddToRepartition([], key, Percentage(actual, total))
  }

  /** The repartition of a resource: each axis's slot, in axis order, against the total actual debt. */
  function RepartitionOf(s: Snapshot, cfg: Config): seq<Entry>
  {
    var total := TotalActual(s, cfg);
    Slot(ComplexityAxis.Name(), ComplexityAxis.ActualDebt(s, cfg), total)
    + Slot(CoverageAxis.Name(), CoverageAxis.ActualDebt(s, cfg), total)
    + Slot(DuplicationAxis.Name(), DuplicationAxis.ActualDebt(s, cfg), total)
  }

  predicate HasEntry(rep: seq<Entry>, key: string)
  {
    exists e :: e in rep && e.key == key
  }

  /** Position in `axes` of the first axis named `key`; `|axes|` when none is. */
  function RankIn(axes: seq<Axis>, key: string): nat
  {
    if axes == [] then 0
    else if axes[0].Name() == key then 0
    else 1 + RankIn(axes[1..], key)
  }

  /** Position of the axis a key names, in axis order. */
  function KeyRank(key: string): nat
  {
    RankIn(AXES, key)
  }

  /** The sum of the percentages of a repartition whose values are all finite. */
  function PercentSum(rep: seq<Entry>): real
    requires forall i :: 0 <= i < |rep| ==> rep[i].value.Finite?
  {
    if rep == [] then 0.0 else rep[0].value.r + PercentSum(rep[1..])
  }

  lemma {:induction false} PercentSumAppend(a: seq<Entry>, b: seq<Entry>)
    requires forall i :: 0 <= i < |a| ==> a[i].value.Finite?
    requires forall i :: 0 <= i < |b| ==> b[i].value.Finite?
    ensures forall i :: 0 <= i < |a + b| ==> (a + b)[i].value.Finite?
    ensures PercentSum(a + b) == PercentSum(a) + PercentSum(b)
  {
    if a == [] {
      assert a + b == b;
    } else {
      assert (a + b)[1..] == a[1..] + b;
      PercentSumAppend(a[1..], b);
    }
  }

  /** A slot holds at most one entry, keyed by its axis, present exactly when the percentage is positive. */
  lemma SlotShape(key: string, actual: real, total: real)
    ensures var p := Percentage(actual, total);
            && (Positive(p) ==> Slot(key, actual, total) == [Entry(key, FloorHundredths(p))])
            && (!Positive(p) ==> Slot(key, actual, total) == [])
  {
  }

  /** Every entry a slot adds carries the slot's key. */
  lemma SlotKeys(key: string, actual: real, total: real)
    ensures forall e :: e in Slot(key, actual, total) ==> e.key == key
  {
  }

  /**
    A slot flanked by entries for other keys: the key has an entry exactly
    when its percentage is positive, and only the rounded-down percentage.
   */
  lemma SlotAmong(before: seq<Entry>, key: string, actual: real, total: real, after: seq<Entry>)
    requires forall e :: e in before ==> e.key != key
    requires forall e :: e in after ==> e.key != key
    ensures var rep := before + Slot(key, actual, total) + after;
            var p := Percentage(actual, total);
            && (HasEntry(rep, key) <==> Positive(p))
            && forall e :: e in rep && e.key == key ==> e.value == FloorHundredths(p)
  {
    var p := Percentage(actual, total);
    SlotShape(key, actual, total);
    if Positive(p) {
      assert Entry(key, FloorHundredths(p)) in before + Slot(key, actual, total) + after;
    }
  }

  /**
    An axis has an entry exactly when its percentage is positive, and the
    entry holds that percentage rounded down to hundredths.
   */
  lemma EntryIffPositive(a: Axis, s: Snapshot, cfg: Config)
    ensures var p := Percentage(a.ActualDebt(s, cfg), TotalActual(s, cfg));
            && (HasEntry(RepartitionOf(s, cfg), a.Name()) <==> Positive(p))
            && forall e :: e in RepartitionOf(s, cfg) && e.key == a.Name()
                 ==> e.value == FloorHundredths(p)
  {
    var total := TotalActual(s, cfg);
    var c := Slot(ComplexityAxis.Name(), ComplexityAxis.ActualDebt(s, cfg), total);
    var v := Slot(CoverageAxis.Name(), CoverageAxis.ActualDebt(s, cfg), total);
    var d := Slot(DuplicationAxis.Name(), DuplicationAxis.ActualDebt(s, cfg), total);
    assert RepartitionOf(s, cfg) == c + v + d;
    SlotKeys(ComplexityAxis.Name(), ComplexityAxis.ActualDebt(s, cfg), total);
    SlotKeys(CoverageAxis.Name(), CoverageAxis.ActualDebt(s, cfg), total);
    SlotKeys(DuplicationAxis.Name(), DuplicationAxis.ActualDebt(s, cfg), total);
    match a
    case ComplexityAxis =>
      assert c + v + d == [] + c + (v + d);
      SlotAmong([], a.Name(), a.ActualDebt(s, cfg), total, v + d);
    case CoverageAxis =>
      SlotAmong(c, a.Name(), a.ActualDebt(s, cfg), total, d);
    case DuplicationAxis =>
      assert c + v + d == (c + v) + d + [];
      SlotAmong(c + v, a.Name(), a.ActualDebt(s, cfg), total, []);
  }

  /** The three axes rank 0, 1 and 2, in the order of the axis list. */
  lemma AxisRanks()
    ensures KeyRank(ComplexityAxis.Name()) == 0
    ensures KeyRank(CoverageAxis.Name()) == 1
    ensures KeyRank(DuplicationAxis.Name()) == 2
  {
    assert AXES[1..][1..] == [DuplicationAxis];
  }

  /** Three slots whose keys rank in increasing order list their entries in that order. */
  lemma OrderedSlots(k1: string, a1: real, k2: string, a2: real, k3: string, a3: real, total: real)
    requires KeyRank(k1) < KeyRank(k2) < KeyRank(k3)
    ensures var rep := Slot(k1, a1, total) + Slot(k2, a2, total) + Slot(k3, a3, total);
            forall j, k :: 0 <= j < k < |rep| ==> KeyRank(rep[j].key) < KeyRank(rep[k].key)
  {
    SlotShape(k1, a1, total);
    SlotShape(k2, a2, total);
    SlotShape(k3, a3, total);
  }

  /** Entries appear in axis order: Complexity, then Coverage, then Duplication. */
  lemma InAxisOrder(s: Snapshot, cfg: Config)
    ensures var rep := RepartitionOf(s, cfg);
            forall j, k :: 0 <= j < k < |rep| ==> KeyRank(rep[j].key) < KeyRank(rep[k].key)
  {
    AxisRanks();
    var total := TotalActual(s, cfg);
    OrderedSlots(ComplexityAxis.Name(), ComplexityAxis.ActualDebt(s, cfg),
                 CoverageAxis.Name(), CoverageAxis.ActualDebt(s, cfg),
                 DuplicationAxis.Name(), DuplicationAxis.ActualDebt(s, cfg), total);
  }


  /**
    The filter tests the percentage before flooring it: a share of 0.005%
    passes the filter and is saved as an entry of 0.00.
   */
  lemma TinyShareSavedAsZero()
    ensures Positive(Percentage(1.0, 20000.0))
    ensures Slot(ComplexityAxis.Name(), 1.0, 20000.0) == [Entry(ComplexityAxis.Name(), Finite(0.0))]
  {
    assert Percentage(1.0, 20000.0) == Finite(0.005);
    assert (0.005 * 100.0).Floor == 0;
  }

  /** One slot against a non-zero total, for a percentage between 0 and 100. */
  lemma SlotBound(key: string, actual: real, total: real)
    requires total != 0.0 && 0.0 <= actual / total * 100.0 <= 100.0
    ensures forall i :: 0 <= i < |Slot(key, actual, total)| ==> Slot(key, actual, total)[i].value.Finite?
    ensures forall e :: e in Slot(key, actual, total) ==> 0.0 <= e.value.r <= 100.0
    ensures PercentSum(Slot(key, actual, total)) <= actual / total * 100.0
  {
    var p := actual / total * 100.0;
    if p > 0.0 {
      FloorHundredthsOfPercentage(p);
      assert Slot(key, actual, total) == [Entry(key, FloorHundredths(Finite(p)))];
    }
  }

  /** Shares of a positive sum of non-negative parts are fractions that add up to one. */
  lemma SharesOfSum(a1: real, a2: real, a3: real)
    requires 0.0 <= a1 && 0.0 <= a2 && 0.0 <= a3 && a1 + a2 + a3 != 0.0
    ensures var t := a1 + a2 + a3;
            && 0.0 <= a1 / t <= 1.0 && 0.0 <= a2 / t <= 1.0 && 0.0 <= a3 / t <= 1.0
            && a1 / t + a2 / t + a3 / t == 1.0
  {
    var t := a1 + a2 + a3;
    assert a1 / t + a2 / t + a3 / t == (a1 + a2 + a3) / t;
    FractionOfWhole(a1, t);
    FractionOfWhole(a2, t);
    FractionOfWhole(a3, t);
  }

  lemma FractionOfWhole(a: real, t: real)
    requires 0.0 <= a <= t && t != 0.0
    ensures 0.0 <= a / t <= 1.0
  {
  }

  /** Three non-negative actual debts against their own sum: finite entries in [0, 100] adding up to at most 100. */
  lemma BoundedAgainstOwnSum(k1: string, a1: real, k2: string, a2: real, k3: string, a3: real)
    requires 0.0 <= a1 && 0.0 <= a2 && 0.0 <= a3
    ensures var t := a1 + a2 + a3;
            var rep := Slot(k1, a1, t) + Slot(k2, a2, t) + Slot(k3, a3, t);
            && (forall i :: 0 <= i < |rep| ==> rep[i].value.Finite?)
            && (forall e :: e in rep ==> 0.0 <= e.value.r <= 100.0)
            && PercentSum(rep) <= 100.0
  {
    var t := a1 + a2 + a3;
    var s1, s2, s3 := Slot(k1, a1, t), Slot(k2, a2, t), Slot(k3, a3, t);
    if t == 0.0 {
      assert s1 == [] && s2 == [] && s3 == [];
      assert s1 + s2 + s3 == [];
    } else {
      SharesOfSum(a1, a2, a3);
      SlotBound(k1, a1, t);
      SlotBound(k2, a2, t);
      SlotBound(k3, a3, t);
      PercentSumAppend(s1, s2);
      PercentSumAppend(s1 + s2, s3);
      assert PercentSum(s1 + s2 + s3) <= a1 / t * 100.0 + a2 / t * 100.0 + a3 / t * 100.0;
    }
  }

  /**
    When every axis is counted and no actual debt is negative, each entry is
    a finite percentage between 0 and 100 and the entries add up to at most
    100. (An entry can be 0.00: the filter looks at the percentage before it
    is rounded down.)
   */
  lemma BoundedWhenAllCounted(s: Snapshot, cfg: Config)
    requires forall a :: a in AXES ==> Counted(a, s, cfg) && a.ActualDebt(s, cfg) >= 0.0
    ensures forall i :: 0 <= i < |RepartitionOf(s, cfg)| ==> RepartitionOf(s, cfg)[i].value.Finite?
    ensures forall e :: e in RepartitionOf(s, cfg) ==> 0.0 <= e.value.r <= 100.0
    ensures PercentSum(RepartitionOf(s, cfg)) <= 100.0
  {
    TotalsWhenAllCounted(s, cfg);
    assert AXES[0].ActualDebt(s, cfg) >= 0.0;
    assert AXES[1].ActualDebt(s, cfg) >= 0.0;
    assert AXES[2].ActualDebt(s, cfg) >= 0.0;
    BoundedAgainstOwnSum(ComplexityAxis.Name(), ComplexityAxis.ActualDebt(s, cfg),
                         CoverageAxis.Name(), CoverageAxis.ActualDebt(s, cfg),
                         DuplicationAxis.Name(), DuplicationAxis.ActualDebt(s, cfg));
  }

  /**
    With a zero total, the axes with positive actual debt get an infinite
    percentage and keep their entry; every other axis (0/0 is NaN, a
    negative debt gives -infinity) gets none.
   */
  lemma ZeroTotal(a: Axis, s: Snapshot, cfg: Config)
    requires TotalActual(s, cfg) == 0.0
    ensures forall e :: e in RepartitionOf(s, cfg) ==> e.value == PositiveInfinity
    ensures HasEntry(RepartitionOf(s, cfg), a.Name()) <==> a.ActualDebt(s, cfg) > 0.0
  {
    EntryIffPositive(a, s, cfg);
  }

  /**
    An axis whose possible debt declines still shows up: its actual debt is
    left out of the total, so with nothing else to count the total is zero,
    no ratio is saved, and the axis is reported at +infinity percent.
   */
  lemma DeclinedAxisReportedAtInfinity()
    ensures var cfg := DefaultConfig(10);
            var s := map[DistanceComplexityLength := Some(12.0)];
            && !Counted(ComplexityAxis, s, cfg)
            && ComplexityAxis.ActualDebt(s, cfg) > 0.0
            && TotalActual(s, cfg) == 0.0
            && TotalPossible(s, cfg) == 0.0
            && RepartitionOf(s, cfg) == [Entry("Complexity", PositiveInfinity)]
  {
  }

  /**
    A resource whose complexity axis declines for want of a complexity
    measure, although 4 units exceed the method ceiling, and half of whose
    400 lines are duplicated; the rates are the defaults.
   */
  predicate ExceedingExample(s: Snapshot, cfg: Config)
  {
    && Get(s, DistanceComplexityLength) == Some(4.0)
    && Get(s, Lines) == Some(400.0)
    && Get(s, DuplicatedLinesDensity) == Some(50.0)
    && !HasValue(s, Complexity) && !HasValue(s, Coverage)
    && cfg == DefaultConfig(cfg.maxComplexityOfFile)
  }

  lemma ExceedingExampleTotal(s: Snapshot, cfg: Config)
    requires ExceedingExample(s, cfg)
    ensures !Counted(ComplexityAxis, s, cfg)
    ensures ComplexityAxis.ActualDebt(s, cfg) == 0.1
    ensures CoverageAxis.ActualDebt(s, cfg) == 0.0
    ensures DuplicationAxis.ActualDebt(s, cfg) == 1.0
    ensures TotalActual(s, cfg) == 1.0
  {
    assert DuplicationAxis.PossibleDebt(s, cfg) == Computed(2.0);
  }

  lemma ExceedingExampleSlots()
    ensures Slot(ComplexityAxis.Name(), 0.1, 1.0) == [Entry(ComplexityAxis.Name(), Finite(10.0))]
    ensures Slot(CoverageAxis.Name(), 0.0, 1.0) == []
    ensures Slot(DuplicationAxis.Name(), 1.0, 1.0) == [Entry(DuplicationAxis.Name(), Finite(100.0))]
  {
    assert Percentage(0.1, 1.0) == Finite(10.0);
    assert (10.0 * 100.0).Floor == 1000;
    assert Percentage(0.0, 1.0) == Finite(0.0);
    assert Percentage(1.0, 1.0) == Finite(100.0);
    assert (100.0 * 100.0).Floor == 10000;
  }

  lemma ExceedingExampleShape(s: Snapshot, cfg: Config)
    requires ExceedingExample(s, cfg)
    ensures RepartitionOf(s, cfg)
            == Slot(ComplexityAxis.Name(), 0.1, 1.0) + Slot(CoverageAxis.Name(), 0.0, 1.0)
               + Slot(DuplicationAxis.Name(), 1.0, 1.0)
  {
    ExceedingExampleTotal(s, cfg);
  }

  /**
    With a positive total, a declined axis with actual debt pushes the
    repartition past 100: here 10.00 for Complexity plus 100.00 for
    Duplication.
   */
  lemma DeclinedAxisExceedsHundred(s: Snapshot, cfg: Config)
    requires ExceedingExample(s, cfg)
    ensures !Counted(ComplexityAxis, s, cfg) && TotalActual(s, cfg) == 1.0
    ensures var rep := RepartitionOf(s, cfg);
            && |rep| == 2
            && rep[0] == Entry(ComplexityAxis.Name(), Finite(10.0))
            && rep[1] == Entry(DuplicationAxis.Name(), Finite(100.0))
  {
    ExceedingExampleTotal(s, cfg);
    ExceedingExampleShape(s, cfg);
    ExceedingExampleSlots();
    ConcatenatedShape(Slot(ComplexityAxis.Name(), 0.1, 1.0), Slot(CoverageAxis.Name(), 0.0, 1.0),
                      Slot(DuplicationAxis.Name(), 1.0, 1.0),
                      Entry(ComplexityAxis.Name(), Finite(10.0)), Entry(DuplicationAxis.Name(), Finite(100.0)));
  }

  /** A one-entry, an empty and a one-entry slot concatenate to the two entries in order. */
  lemma ConcatenatedShape(x: seq<Entry>, y: seq<Entry>, z: seq<Entry>, first: Entry, last: Entry)
    requires x == [first] && y == [] && z == [last]
    ensures var rep := x + y + z; |rep| == 2 && rep[0] == first && rep[1] == last
  {
  }
}
