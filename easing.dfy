/**
 * The progress clamp, the cubic ease-in-out curve and the linear interpolation
 * that both the car animation and the hover-scale animation of main.js use.
 */
module Easing {

  /** `Math.pow(x, 3)`. */
  function Cube(x: real): real
  {
    x * x * x
  }

  /** Duration of the car animation, in milliseconds. */
  const CarDuration: real := 2000.0

  /** Duration of the hover-scale animation, in milliseconds. */
  const HoverDuration: real := 400.0

  /**
   * `Math.min(elapsed / duration, 1)`. There is no lower clamp: a negative
   * elapsed time gives a negative progress, as in the source.
   */
  function Progress(elapsed: real, duration: real): (p: real)
    requires duration > 0.0
    ensures p <= 1.0
    ensures p == 1.0 <==> elapsed >= duration
    ensures p < 1.0 ==> p * duration == elapsed
    ensures 0.0 <= elapsed ==> 0.0 <= p
  {
    if elapsed / duration < 1.0 then elapsed / duration else 1.0
  }

  /**
   * The cubic ease-in-out: `p < .5 ? 4p^3 : 1 - (-2p + 2)^3 / 2`. It starts at 0,
   * passes through one half where the two branches meet, and ends exactly at 1.
   */
  function Ease(p: real): (e: real)
    ensures p == 0.0 ==> e == 0.0
    ensures p == 0.5 ==> e == 0.5 && e == 4.0 * Cube(p)
    ensures p == 1.0 ==> e == 1.0
  {
    if p < 0.5 then
      assert p == 0.0 ==> Cube(p) == Cube(0.0) == 0.0;
      4.0 * Cube(p)
    else
      assert p == 0.5 ==> Cube(-2.0 * p + 2.0) == Cube(1.0) == 1.0;
      assert p == 1.0 ==> Cube(-2.0 * p + 2.0) == Cube(0.0) == 0.0;
      1.0 - Cube(-2.0 * p + 2.0) / 2.0
  }

  /** `a + (b - a) * t`: the value a fraction `t` of the way from `a` to `b`. */
  function Lerp(a: real, b: real, t: real): (r: real)
    ensures t == 0.0 ==> r == a
    ensures t == 1.0 ==> r == b
  {
    a + (b - a) * t
  }

  lemma MulNonnegative(x: real, y: real)
    requires 0.0 <= x && 0.0 <= y
    ensures 0.0 <= x * y
  {
  }

  lemma CubeMonotone(a: real, b: real)
    requires 0.0 <= a <= b
    ensures 0.0 <= Cube(a) <= Cube(b)
  {
    assert 0.0 <= a * a <= a * b <= b * b;
    assert a * a * a <= b * b * a <= b * b * b;
  }

  /** On the unit interval the first half of the curve stays below one half and the second half at or above it. */
  lemma EaseHalves(p: real)
    requires 0.0 <= p <= 1.0
    ensures p < 0.5 ==> 0.0 <= Ease(p) < 0.5
    ensures 0.5 <= p ==> 0.5 <= Ease(p) <= 1.0
  {
    if p < 0.5 {
      CubeMonotone(p, 0.5);
      if p == 0.0 {
      } else {
        assert p * p < 0.5 * p < 0.5 * 0.5;
        assert p * p * p < 0.5 * 0.5 * p < 0.5 * 0.5 * 0.5;
      }
    } else {
      CubeMonotone(-2.0 * p + 2.0, 1.0);
    }
  }

  /** The eased progress of a progress in [0, 1] is itself in [0, 1]. */
  lemma EaseInUnit(p: real)
    requires 0.0 <= p <= 1.0
    ensures 0.0 <= Ease(p) <= 1.0
  {
    EaseHalves(p);
  }

  /** The curve never goes backwards on [0, 1]. */
  lemma EaseMonotone(p: real, q: real)
    requires 0.0 <= p <= q <= 1.0
    ensures Ease(p) <= Ease(q)
  {
    if q < 0.5 {
      CubeMonotone(p, q);
    } else if 0.5 <= p {
      CubeMonotone(-2.0 * q + 2.0, -2.0 * p + 2.0);
    } else {
      EaseHalves(p);
      EaseHalves(q);
    }
  }

  lemma CubeDouble(x: real)
    ensures Cube(2.0 * x) == 8.0 * Cube(x)
  {
    calc {
      Cube(2.0 * x);
      (2.0 * x) * (2.0 * x) * (2.0 * x);
      (4.0 * (x * x)) * (2.0 * x);
      8.0 * (x * x * x);
    }
  }

  /** The curve is point-symmetric about (1/2, 1/2): easing in mirrors easing out. */
  lemma EaseSymmetric(p: real)
    ensures Ease(1.0 - p) == 1.0 - Ease(p)
  {
    if p < 0.5 {
      assert -2.0 * (1.0 - p) + 2.0 == 2.0 * p;
      CubeDouble(p);
    } else if p > 0.5 {
      assert -2.0 * p + 2.0 == 2.0 * (1.0 - p);
      CubeDouble(1.0 - p);
    }
  }

  /** An eased interpolation of a progress in [0, 1] never leaves the segment between its end points. */
  lemma EasedLerpBetween(a: real, b: real, p: real)
    requires 0.0 <= p <= 1.0
    ensures a <= b ==> a <= Lerp(a, b, Ease(p)) <= b
    ensures b <= a ==> b <= Lerp(a, b, Ease(p)) <= a
  {
    var e := Ease(p);
    EaseInUnit(p);
    var d := b - a;
    assert d * e + d * (1.0 - e) == d;
    if a <= b {
      MulNonnegative(d, e);
      MulNonnegative(d, 1.0 - e);
    } else {
      MulNonnegative(-d, e);
      MulNonnegative(-d, 1.0 - e);
    }
  }

  /** Later ticks never see a smaller progress. */
  lemma ProgressMonotone(elapsed1: real, elapsed2: real, duration: real)
    requires duration > 0.0
    requires elapsed1 <= elapsed2
    ensures Progress(elapsed1, duration) <= Progress(elapsed2, duration)
  {
    assert elapsed2 / duration - elapsed1 / duration == (elapsed2 - elapsed1) / duration;
  }

  /** Interpolating further towards `b` never moves away from it. */
  lemma LerpMonotone(a: real, b: real, t1: real, t2: real)
    requires t1 <= t2
    ensures a <= b ==> Lerp(a, b, t1) <= Lerp(a, b, t2)
    ensures b <= a ==> Lerp(a, b, t2) <= Lerp(a, b, t1)
  {
    assert Lerp(a, b, t2) - Lerp(a, b, t1) == (b - a) * (t2 - t1);
    if a <= b {
      MulNonnegative(b - a, t2 - t1);
    } else {
      MulNonnegative(a - b, t2 - t1);
    }
  }
}
