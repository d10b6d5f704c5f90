/** Exact real arithmetic shared by the gesture pipeline and the frame loop:
    the `lerp` helper of the vision service and THREE.MathUtils.lerp are the
    same formula, `(1 - t) * a + t * b`, and `Math.min`/`Math.max` clamp. */
module Numeric {

  /** `Math.min`: the smaller argument. */
  function Min(a: real, b: real): (r: real)
    ensures r <= a && r <= b
    ensures r == a || r == b
  {
    if a <= b then a else b
  }

  /** `Math.max`: the larger argument. */
  function Max(a: real, b: real): (r: real)
    ensures a <= r && b <= r
    ensures r == a || r == b
  {
    if a <= b then b else a
  }

  /** `Math.max(lo, Math.min(hi, x))`, the clamp idiom of the source. */
  function Clamp(lo: real, hi: real, x: real): (r: real)
    requires lo <= hi
    ensures lo <= r <= hi
    ensures lo <= x <= hi ==> r == x
    ensures x < lo ==> r == lo
    ensures hi < x ==> r == hi
  {
    Max(lo, Min(hi, x))
  }

  /** Linear interpolation from `a` towards `b` by the fraction `t`. */
  function Lerp(a: real, b: real, t: real): real
  {
    (1.0 - t) * a + t * b
  }

  /** Lerp moves `a` by the fraction `t` of the gap to `b`. */
  lemma LerpStep(a: real, b: real, t: real)
    ensures Lerp(a, b, t) - a == t * (b - a)
  {
  }

  /** The interpolant of a fraction in [0, 1] lies between the two end points. */
  lemma LerpOnSegment(a: real, b: real, t: real)
    requires 0.0 <= t <= 1.0
    ensures Min(a, b) <= Lerp(a, b, t) <= Max(a, b)
  {
    assert Lerp(a, b, t) == a + t * (b - a);
    if a <= b {
      MulNonneg(t, b - a);
      MulNonneg(1.0 - t, b - a);
    } else {
      MulNonneg(t, a - b);
      MulNonneg(1.0 - t, a - b);
    }
  }

  /** The product of two non-negative reals is non-negative. */
  lemma MulNonneg(x: real, y: real)
    requires 0.0 <= x && 0.0 <= y
    ensures 0.0 <= x * y
  {
  }

  /** Lerping a value inside [lo, hi] towards a target inside [lo, hi] stays
      inside [lo, hi]. */
  lemma LerpStaysIn(lo: real, hi: real, a: real, b: real, t: real)
    requires lo <= a <= hi && lo <= b <= hi && 0.0 <= t <= 1.0
    ensures lo <= Lerp(a, b, t) <= hi
  {
    LerpOnSegment(a, b, t);
  }

  /** `sqrt` behaves as `Math.sqrt` on the non-negative reals. */
  ghost predicate IsSqrt(sqrt: real -> real)
  {
    forall x :: 0.0 <= x ==> 0.0 <= sqrt(x) && sqrt(x) * sqrt(x) == x
  }
}
