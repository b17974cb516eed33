/**
  The few IEEE-754 double values the debt repartition can meet. Exact reals
  stand for finite doubles (rounding is not modelled); the three special
  values matter only when a share is divided by a zero total.
 */
module Doubles {

  datatype Double = Finite(r: real) | PositiveInfinity | NegativeInfinity | NaN

  /**
    x / y. The divisor is a running sum that starts at +0.0, and adding
    doubles never turns +0.0 into -0.0, so a zero divisor is +0.0: the
    quotient then takes the sign of x, and 0/0 is NaN.
   */
  function Quotient(x: real, y: real): (q: Double)
    ensures y != 0.0 ==> q.Finite? && q.r * y == x
    ensures y == 0.0 ==> (q.PositiveInfinity? <==> x > 0.0)
    ensures y == 0.0 ==> (q.NegativeInfinity? <==> x < 0.0)
    ensures y == 0.0 ==> (q.NaN? <==> x == 0.0)
  {
    if y != 0.0 then Finite(x / y)
    else if x > 0.0 then PositiveInfinity
    else if x < 0.0 then NegativeInfinity
    else NaN
  }

  /** d * k: an infinity keeps or flips its sign with k, and becomes NaN when k is zero. */
  function Times(d: Double, k: real): Double
  {
    match d
    case Finite(r) => Finite(r * k)
    case PositiveInfinity =>
      if k > 0.0 then PositiveInfinity else if k < 0.0 then NegativeInfinity else NaN
    case NegativeInfinity =>
      if k > 0.0 then NegativeInfinity else if k < 0.0 then PositiveInfinity else NaN
    case NaN => NaN
  }

  /** d > 0: true of positive finite values and of +infinity, false of NaN. */
  predicate Positive(d: Double)
  {
    (d.Finite? && d.r > 0.0) || d.PositiveInfinity?
  }

  /**
    floor(d * 100) / 100: a finite value is rounded down to whole hundredths,
    never by a full hundredth; the special values pass through unchanged.
   */
  function FloorHundredths(d: Double): (f: Double)
    ensures d.Finite? ==> f.Finite? && f.r <= d.r < f.r + 0.01
    ensures d.Finite? ==> (f.r * 100.0).Floor as real == f.r * 100.0
    ensures !d.Finite? ==> f == d
  {
    match d
    case Finite(r) => Finite((r * 100.0).Floor as real / 100.0)
    case _ => d
  }

  /** A positive finite value keeps a non-negative rounded value, and a value of at most 100 stays at most 100. */
  lemma FloorHundredthsOfPercentage(p: real)
    requires 0.0 < p
    ensures 0.0 <= FloorHundredths(Finite(p)).r <= p
    ensures p <= 100.0 ==> FloorHundredths(Finite(p)).r <= 100.0
  {
    var f := (p * 100.0).Floor;
    assert f >= 0 by {
      assert (f as real) > p * 100.0 - 1.0;
    }
  }
}
