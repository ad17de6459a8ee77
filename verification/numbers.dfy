/**
 The part of JavaScript number semantics the editor relies on, over exact reals:
 a finite value, the two infinities and NaN. IEEE rounding is not modelled.
 */
module Numbers {

  /** A JavaScript number: finite (an exact real), +Infinity, -Infinity or NaN. */
  datatype Num = Finite(v: real) | PosInfinity | NegInfinity | NaN

  /** `v > 0` in JavaScript: false for NaN and -Infinity, true for +Infinity. */
  predicate IsPositive(n: Num)
  {
    match n
    case Finite(v) => v > 0.0
    case PosInfinity => true
    case NegInfinity => false
    case NaN => false
  }

  function Abs(x: real): (r: real)
    ensures r >= 0.0
    ensures r == x || r == -x
  {
    if x < 0.0 then -x else x
  }

  /** `Math.round` on a finite value: the nearest integer, halves rounded up. */
  function Round(x: real): (r: int)
    ensures x - 0.5 < r as real <= x + 0.5
  {
    (x + 0.5).Floor
  }

  /** A whole-number real, as `Math.round` produces. */
  predicate IsWhole(x: real)
  {
    x == x.Floor as real
  }

  /** Rounding never moves a value past a bound it respects. */
  lemma RoundMonotone(x: real, y: real)
    requires x <= y
    ensures Round(x) <= Round(y)
  {
  }

  /** Rounding a whole number gives that number back. */
  lemma RoundWhole(x: real)
    requires IsWhole(x)
    ensures Round(x) as real == x
  {
    var d := Round(x) - x.Floor;
    assert -0.5 < d as real <= 0.5;
  }

  lemma MulNonNegative(a: real, b: real)
    requires a >= 0.0 && b >= 0.0
    ensures a * b >= 0.0
  {
  }

  /** A rounding error of at most one half, scaled by a non-negative factor. */
  lemma ScaledRoundingError(d: real, p: real)
    requires -0.5 < d <= 0.5 && p >= 0.0
    ensures Abs(d * p) <= 0.5 * p
  {
    if d >= 0.0 {
      MulNonNegative(0.5 - d, p);
      MulNonNegative(d, p);
    } else {
      MulNonNegative(0.5 + d, p);
      MulNonNegative(-d, p);
    }
  }

  /**
   JavaScript division `a / b` for non-negative finite operands: a positive
   numerator over zero is +Infinity and `0 / 0` is NaN.
   */
  function DivNonNegative(a: real, b: real): (r: Num)
    requires a >= 0.0 && b >= 0.0
    ensures b > 0.0 ==> r == Finite(a / b)
    ensures b == 0.0 && a > 0.0 ==> r == PosInfinity
    ensures b == 0.0 && a == 0.0 ==> r == NaN
  {
    if b > 0.0 then Finite(a / b)
    else if a > 0.0 then PosInfinity
    else NaN
  }

  /**
   Rounding `a / b` for a positive `b` gives a non-negative whole number whose
   product with `b` is within `b / 2` of `a`.
   */
  lemma RoundedQuotientError(a: real, b: real)
    requires a >= 0.0 && b > 0.0
    ensures RoundNum(DivNonNegative(a, b)).Finite?
    ensures IsWhole(RoundNum(DivNonNegative(a, b)).v) && RoundNum(DivNonNegative(a, b)).v >= 0.0
    ensures Abs(RoundNum(DivNonNegative(a, b)).v * b - a) <= 0.5 * b
  {
    var q := a / b;
    assert q * b == a;
    var r := RoundNum(Finite(q)).v;
    assert r * b - a == (r - q) * b;
    ScaledRoundingError(r - q, b);
  }

  /** `Math.round` on any number: infinities and NaN are returned as they are. */
  function RoundNum(n: Num): (r: Num)
    ensures n.Finite? <==> r.Finite?
    ensures r.Finite? ==> IsWhole(r.v) && n.v - 0.5 < r.v <= n.v + 0.5
    ensures !n.Finite? ==> r == n
  {
    match n
    case Finite(v) => Finite(Round(v) as real)
    case _ => n
  }
}
