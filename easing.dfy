/** `Math.easeInOutQuad(t, b, c, d)` (lib/transition.js:29-34; index.js:4-9 defines the same
    function again): Robert Penner's quadratic ease-in-out from `b` to `b + c` over duration
    `d`, sampled at time `t`. */
module Easing {

  /** The accelerating half, for `u = t / (d / 2) < 1`. */
  function InHalf(u: real, b: real, c: real): real
  {
    c / 2.0 * u * u + b
  }

  /** The decelerating half, for `u >= 1`; the source decrements `u` and evaluates
      `(-c / 2) * (u * (u - 2) - 1) + b` on the decremented value. */
  function OutHalf(u: real, b: real, c: real): real
  {
    var v := u - 1.0;
    -c / 2.0 * (v * (v - 2.0) - 1.0) + b
  }

  /** The source's `t /= d / 2`: time measured in half-durations. */
  function Scaled(t: real, d: real): real
    requires d != 0.0
  {
    t / (d / 2.0)
  }

  /** The scaled time is 0, 1 and 2 at the start, the middle and the end. */
  lemma ScaledTime(t: real, d: real)
    requires d != 0.0
    ensures t == 0.0 ==> Scaled(t, d) == 0.0
    ensures 2.0 * t == d ==> Scaled(t, d) == 1.0
    ensures t == d ==> Scaled(t, d) == 2.0
  {
    var h := d / 2.0;
    var u := t / h;
    assert h != 0.0 && u == Scaled(t, d);
    assert u * h == t;
    if t == 0.0 {
      ProductZero(u, h);
    }
    if 2.0 * t == d {
      assert (u - 1.0) * h == u * h - h == 0.0;
      ProductZero(u - 1.0, h);
    }
    if t == d {
      assert (u - 2.0) * h == u * h - 2.0 * h == 0.0;
      ProductZero(u - 2.0, h);
    }
  }

  /** The curve. A zero duration divides by zero in the source and is excluded. */
  function EaseInOutQuad(t: real, b: real, c: real, d: real): (r: real)
    requires d != 0.0
    ensures t == 0.0 ==> r == b
    ensures t == d ==> r == b + c
    ensures 2.0 * t == d ==> r == b + c / 2.0
  {
    var u := Scaled(t, d);
    ScaledTime(t, d);
    if u < 1.0 then InHalf(u, b, c) else OutHalf(u, b, c)
  }

  /** The decelerating half is a parabola with its vertex at the end point `u = 2`. */
  lemma OutHalfVertex(u: real, b: real, c: real)
    ensures OutHalf(u, b, c) == b + c - c / 2.0 * (u - 2.0) * (u - 2.0)
  {
    var v := u - 1.0;
    assert v * (v - 2.0) - 1.0 == (u - 2.0) * (u - 2.0) - 2.0;
  }

  /** The two halves meet at `u = 1` with the same value and slope: they differ by `c (u - 1)^2`. */
  lemma HalvesMeet(u: real, b: real, c: real)
    ensures InHalf(u, b, c) - OutHalf(u, b, c) == c * (u - 1.0) * (u - 1.0)
    ensures InHalf(1.0, b, c) == OutHalf(1.0, b, c) == b + c / 2.0
  {
    OutHalfVertex(u, b, c);
    assert (u - 2.0) * (u - 2.0) == u * u - 4.0 * u + 4.0;
    assert (u - 1.0) * (u - 1.0) == u * u - 2.0 * u + 1.0;
  }

  /** For a positive duration the scaled time grows with `t`, stays in `[0, 2]` while
      `0 <= t <= d`, passes 2 after the end, and mirrors around 1 when `t` mirrors around `d / 2`. */
  lemma ScaledOrder(t1: real, t2: real, d: real)
    requires d > 0.0
    ensures t1 <= t2 ==> Scaled(t1, d) <= Scaled(t2, d)
    ensures 0.0 <= t1 <= d ==> 0.0 <= Scaled(t1, d) <= 2.0
    ensures t1 > d ==> Scaled(t1, d) > 2.0
  {
    var h := d / 2.0;
    var u1, u2 := t1 / h, t2 / h;
    assert h > 0.0 && u1 == Scaled(t1, d) && u2 == Scaled(t2, d);
    assert u1 * h == t1 && u2 * h == t2;
    if t1 <= t2 {
      assert (u2 - u1) * h == u2 * h - u1 * h == t2 - t1;
      ProductSign(u2 - u1, h);
      assert u1 <= u2;
    }
    assert (u1 - 2.0) * h == u1 * h - 2.0 * h == t1 - d;
    ProductSign(u1 - 2.0, h);
    ProductSign(u1, h);
  }

  /** Mirroring the time around the middle mirrors the scaled time around 1. */
  lemma ScaledMirror(t: real, d: real)
    requires d != 0.0
    ensures Scaled(d - t, d) == 2.0 - Scaled(t, d)
  {
    var h := d / 2.0;
    var u, w := t / h, (d - t) / h;
    assert u * h == t && w * h == d - t;
    assert (w - (2.0 - u)) * h == 0.0;
    ProductZero(w - (2.0 - u), h);
  }

  lemma ProductSign(x: real, h: real)
    requires h > 0.0
    ensures x < 0.0 ==> x * h < 0.0
    ensures x > 0.0 ==> x * h > 0.0
  {
  }

  lemma ProductZero(x: real, h: real)
    requires h != 0.0 && x * h == 0.0
    ensures x == 0.0
  {
  }

  lemma ProductOrder(k: real, x: real, y: real)
    requires k >= 0.0 && x <= y
    ensures k * x <= k * y
  {
    assert k * y - k * x == k * (y - x);
  }

  lemma SquareOrder(x: real, y: real)
    requires 0.0 <= x <= y
    ensures x * x <= y * y
  {
    ProductOrder(x, x, y);
    ProductOrder(y, x, y);
  }

  /** With a non-negative change each half rises over its own range of `u`. */
  lemma HalvesRise(u1: real, u2: real, b: real, c: real)
    requires c >= 0.0 && u1 <= u2
    ensures 0.0 <= u1 ==> InHalf(u1, b, c) <= InHalf(u2, b, c)
    ensures u2 <= 2.0 ==> OutHalf(u1, b, c) <= OutHalf(u2, b, c)
  {
    if 0.0 <= u1 {
      SquareOrder(u1, u2);
      ProductOrder(c / 2.0, u1 * u1, u2 * u2);
      assert c / 2.0 * u1 * u1 == c / 2.0 * (u1 * u1);
      assert c / 2.0 * u2 * u2 == c / 2.0 * (u2 * u2);
    }
    if u2 <= 2.0 {
      OutHalfVertex(u1, b, c);
      OutHalfVertex(u2, b, c);
      SquareOrder(2.0 - u2, 2.0 - u1);
      ProductOrder(c / 2.0, (2.0 - u2) * (2.0 - u2), (2.0 - u1) * (2.0 - u1));
      assert c / 2.0 * (u1 - 2.0) * (u1 - 2.0) == c / 2.0 * ((2.0 - u1) * (2.0 - u1));
      assert c / 2.0 * (u2 - 2.0) * (u2 - 2.0) == c / 2.0 * ((2.0 - u2) * (2.0 - u2));
    }
  }

  /** With a positive duration and a non-negative change the curve never falls while
      `0 <= t <= d`. */
  lemma EaseMonotone(t1: real, t2: real, b: real, c: real, d: real)
    requires d > 0.0 && c >= 0.0 && 0.0 <= t1 <= t2 <= d
    ensures EaseInOutQuad(t1, b, c, d) <= EaseInOutQuad(t2, b, c, d)
  {
    ScaledOrder(t1, t2, d);
    ScaledOrder(t2, t2, d);
    var u1, u2 := Scaled(t1, d), Scaled(t2, d);
    if u1 < 1.0 && 1.0 <= u2 {
      HalvesRise(u1, 1.0, b, c);
      HalvesRise(1.0, u2, b, c);
      HalvesMeet(1.0, b, c);
    } else {
      HalvesRise(u1, u2, b, c);
    }
  }

  /** With a positive duration and a non-negative change the curve stays between its start
      value `b` and its end value `b + c` while `0 <= t <= d`. */
  lemma EaseBounded(t: real, b: real, c: real, d: real)
    requires d > 0.0 && c >= 0.0 && 0.0 <= t <= d
    ensures b <= EaseInOutQuad(t, b, c, d) <= b + c
  {
    EaseMonotone(0.0, t, b, c, d);
    EaseMonotone(t, d, b, c, d);
  }

  /** Negating the change reflects the curve about its start value `b`. */
  lemma EaseReflect(t: real, b: real, c: real, d: real)
    requires d != 0.0
    ensures EaseInOutQuad(t, b, c, d) + EaseInOutQuad(t, b, -c, d) == 2.0 * b
  {
    var u := Scaled(t, d);
    assert -c / 2.0 * u * u == -(c / 2.0 * u * u);
    OutHalfVertex(u, b, c);
    OutHalfVertex(u, b, -c);
    assert -c / 2.0 * (u - 2.0) * (u - 2.0) == -(c / 2.0 * (u - 2.0) * (u - 2.0));
  }

  /** With a positive duration and a non-positive change the curve stays between its end value
      `b + c` and its start value `b` while `0 <= t <= d`. */
  lemma EaseBoundedFalling(t: real, b: real, c: real, d: real)
    requires d > 0.0 && c <= 0.0 && 0.0 <= t <= d
    ensures b + c <= EaseInOutQuad(t, b, c, d) <= b
  {
    EaseBounded(t, b, -c, d);
    EaseReflect(t, b, c, d);
  }

  /** The curve is point-symmetric about its middle: the distance travelled by time `t` equals
      the distance left at time `d - t`. */
  lemma EaseSymmetric(t: real, b: real, c: real, d: real)
    requires d != 0.0
    ensures EaseInOutQuad(t, b, c, d) + EaseInOutQuad(d - t, b, c, d) == 2.0 * b + c
  {
    ScaledMirror(t, d);
    var u := Scaled(t, d);
    OutHalfVertex(u, b, c);
    OutHalfVertex(2.0 - u, b, c);
    assert (2.0 - u - 2.0) * (2.0 - u - 2.0) == u * u;
    assert (u - 2.0) * (u - 2.0) == (2.0 - u) * (2.0 - u);
    if u == 1.0 {
      HalvesMeet(1.0, b, c);
    }
  }

  /** Sampled after the end of a positive duration, the curve has turned back: with a positive
      change it lies strictly below the end value `b + c`. */
  lemma EasePastEnd(t: real, b: real, c: real, d: real)
    requires d > 0.0 && c > 0.0 && t > d
    ensures EaseInOutQuad(t, b, c, d) < b + c
  {
    ScaledOrder(t, t, d);
    var u := Scaled(t, d);
    OutHalfVertex(u, b, c);
    ProductSign(u - 2.0, u - 2.0);
    ProductSign((u - 2.0) * (u - 2.0), c / 2.0);
    assert c / 2.0 * (u - 2.0) * (u - 2.0) == (u - 2.0) * (u - 2.0) * (c / 2.0);
    assert u > 2.0;
    assert (u - 2.0) * (u - 2.0) > 0.0;
    assert (u - 2.0) * (u - 2.0) * (c / 2.0) > 0.0;
    assert c / 2.0 * (u - 2.0) * (u - 2.0) > 0.0;
    assert OutHalf(u, b, c) == b + c - c / 2.0 * (u - 2.0) * (u - 2.0);
    assert OutHalf(u, b, c) < b + c;
    assert EaseInOutQuad(t, b, c, d) == OutHalf(u, b, c);
  }
}
