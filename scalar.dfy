/** Scalar helpers of the rasteriser: the two inline helpers of the math
    header (`clamp`, `interp`), and the C conversions the rest of the
    pipeline relies on (float-to-int truncation, the reciprocal `1.0f / x`).
    Every C `float` is a Dafny `real`. */
module Scalar {

  /** `clamp(x, min, max)`: `min` below the range, `max` above it, `x` inside. */
  function Clamp(x: int, min: int, max: int): (r: int)
    ensures min <= max ==> min <= r <= max
    ensures min <= x <= max ==> r == x
    ensures x < min ==> r == min
    ensures min <= x && max < x ==> r == max
  {
    if x < min then min else if x > max then max else x
  }

  /** `interp(x1, x2, t)`: the point a fraction `t` of the way from `x1` to `x2`. */
  function Interp(x1: real, x2: real, t: real): (r: real)
    ensures t == 0.0 ==> r == x1
    ensures t == 1.0 ==> r == x2
  {
    x1 + (x2 - x1) * t
  }

  /** For `t` in [0, 1] the interpolated value lies between the two end points. */
  lemma InterpBetween(x1: real, x2: real, t: real)
    requires 0.0 <= t <= 1.0
    ensures x1 <= x2 ==> x1 <= Interp(x1, x2, t) <= x2
    ensures x2 <= x1 ==> x2 <= Interp(x1, x2, t) <= x1
  {
    var d := x2 - x1;
    assert Interp(x1, x2, t) == x1 + d * t;
    if 0.0 <= d {
      MulBetween(d, t);
    } else {
      MulBetween(-d, t);
      assert (-d) * t == -(d * t);
    }
  }

  lemma MulBetween(d: real, t: real)
    requires 0.0 <= d && 0.0 <= t <= 1.0
    ensures 0.0 <= d * t <= d
  {
    assert d * t <= d * 1.0;
  }

  /** The C conversion `(int)r` of a float: truncation toward zero (not floor). */
  function Trunc(r: real): (i: int)
    ensures 0.0 <= r ==> 0 <= i && r - 1.0 < i as real <= r
    ensures r < 0.0 ==> i <= 0 && r <= i as real < r + 1.0
  {
    if r >= 0.0 then r.Floor else -((-r).Floor)
  }

  /** Truncation is monotone, so a larger coordinate never rounds to a smaller pixel. */
  lemma TruncMonotone(a: real, b: real)
    requires a <= b
    ensures Trunc(a) <= Trunc(b)
  {
    if 0.0 <= a {
      assert Trunc(a) as real <= a <= b < Trunc(b) as real + 1.0;
    } else if b < 0.0 {
      assert a <= Trunc(a) as real && Trunc(a) as real < a + 1.0;
      assert b <= Trunc(b) as real < b + 1.0;
      assert Trunc(a) as real < a + 1.0 <= b + 1.0 <= Trunc(b) as real + 1.0;
    }
  }

  /** The float quotient `a / b`. At `b == 0` IEEE arithmetic yields an
      infinity or NaN; the model yields 0 there and claims nothing about it. */
  function Div(a: real, b: real): (q: real)
    ensures b != 0.0 ==> q * b == a
    ensures 0.0 < b && 0.0 <= a ==> 0.0 <= q
  {
    if b == 0.0 then 0.0 else a / b
  }

  /** The reciprocal `1.0f / x`. At `x == 0` IEEE arithmetic yields an
      infinity; the model yields 0 there and claims nothing about that case. */
  function Recip(x: real): (r: real)
    ensures x != 0.0 ==> r * x == 1.0
    ensures x > 0.0 <==> r > 0.0
  {
    if x == 0.0 then 0.0 else 1.0 / x
  }
}
