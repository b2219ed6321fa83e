/**
 * Real-number helpers with the meaning Unity's `Mathf` gives them, stated on
 * exact reals (no rounding, no NaN, no infinities).
 */
module Numerics {

  function Min(a: real, b: real): real { if a <= b then a else b }

  function Max(a: real, b: real): real { if a <= b then b else a }

  /** `x` lies on the closed segment between `a` and `b`, whichever is larger. */
  predicate Between(x: real, a: real, b: real) { Min(a, b) <= x <= Max(a, b) }

  /** Mathf.Abs */
  function Abs(x: real): (r: real)
    ensures r >= 0.0 && (r == x || r == -x)
  {
    if x < 0.0 then -x else x
  }

  /**
   * Mathf.Clamp: the value pulled into [min, max]. A value already inside is
   * kept; a value outside stops at the bound it overshot.
   */
  function Clamp(value: real, min: real, max: real): (r: real)
    ensures min <= max ==> min <= r <= max
    ensures min <= value <= max ==> r == value
    ensures value < min ==> r == min
    ensures min <= value && max < value ==> r == max
  {
    if value < min then min else if value > max then max else value
  }

  /** Mathf.Clamp01: the fraction pulled into [0, 1]. */
  function Clamp01(t: real): (u: real)
    ensures 0.0 <= u <= 1.0
    ensures 0.0 <= t <= 1.0 ==> u == t
    ensures t < 0.0 ==> u == 0.0
    ensures t > 1.0 ==> u == 1.0
  {
    Clamp(t, 0.0, 1.0)
  }

  /** Scaling a difference by a fraction in [0, 1] lands between 0 and the difference. */
  lemma ScaleWithinUnit(d: real, u: real)
    requires 0.0 <= u <= 1.0
    ensures Between(d * u, 0.0, d)
  {
    if d >= 0.0 {
      assert d * u <= d * 1.0;
    } else {
      assert d * u >= d * 1.0;
    }
  }

  /**
   * Mathf.Lerp: the point a fraction `t` of the way from `a` to `b`, with `t`
   * clamped to [0, 1], so the result never leaves the segment from `a` to `b`.
   */
  function Lerp(a: real, b: real, t: real): (r: real)
    ensures Between(r, a, b)
    ensures t <= 0.0 ==> r == a
    ensures t >= 1.0 ==> r == b
  {
    ScaleWithinUnit(b - a, Clamp01(t));
    a + (b - a) * Clamp01(t)
  }

  /** Interpolating between two points of a symmetric interval [-m, m] stays inside it. */
  lemma LerpWithin(a: real, b: real, t: real, m: real)
    requires -m <= a <= m && -m <= b <= m
    ensures -m <= Lerp(a, b, t) <= m
  {
    var r := Lerp(a, b, t);
    assert Min(a, b) <= r <= Max(a, b);
    assert -m <= Min(a, b) && Max(a, b) <= m;
  }

  lemma ProductNonNegative(x: real, y: real)
    requires x >= 0.0 && y >= 0.0
    ensures x * y >= 0.0
  {
    if y > 0.0 {
      assert x * y >= 0.0 * y;
    }
  }

  /** Interpolating downhill (b <= a), a later fraction never gives a larger value. */
  lemma {:induction false} LerpNonIncreasing(a: real, b: real, t1: real, t2: real)
    requires b <= a && t1 <= t2
    ensures Lerp(a, b, t2) <= Lerp(a, b, t1)
  {
    var u1, u2 := Clamp01(t1), Clamp01(t2);
    assert u1 <= u2;
    assert (b - a) * (u2 - u1) <= 0.0 by {
      ProductNonNegative(a - b, u2 - u1);
      assert (b - a) * (u2 - u1) == -((a - b) * (u2 - u1));
    }
    assert (b - a) * u2 == (b - a) * u1 + (b - a) * (u2 - u1);
  }

  /** `v` is the non-negative square root of `x`, the value Mathf.Sqrt(x) stands for. */
  predicate IsSquareRoot(v: real, x: real) { v >= 0.0 && v * v == x }

  /** Of two non-negative numbers, the one with the smaller square is the smaller. */
  lemma SquaresOrderRoots(a: real, b: real)
    requires a >= 0.0 && b >= 0.0 && a * a < b * b
    ensures a < b
  {
    assert b + a > 0.0;
    assert (b - a) * (b + a) == b * b - a * a;
    assert b - a == (b * b - a * a) / (b + a);
  }

  /** A non-negative square root is unique. */
  lemma {:induction false} SquareRootUnique(v: real, w: real, x: real)
    requires IsSquareRoot(v, x) && IsSquareRoot(w, x)
    ensures v == w
  {
    assert (v - w) * (v + w) == v * v - w * w == 0.0;
    if v + w != 0.0 {
      assert v - w == ((v - w) * (v + w)) / (v + w);
    }
  }
}
