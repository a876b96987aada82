// Arithmetic helpers shared by the model: running sums the way the source's
// loops accumulate them (element by element, front to back), means, and
// Python's `int()` on a float, which truncates toward zero.
module Numeric {

  function SumInt(xs: seq<int>): int
  {
    if xs == [] then 0 else SumInt(xs[..|xs| - 1]) + xs[|xs| - 1]
  }

  function SumReal(xs: seq<real>): real
  {
    if xs == [] then 0.0 else SumReal(xs[..|xs| - 1]) + xs[|xs| - 1]
  }

  lemma {:induction false} SumRealBounds(xs: seq<real>, lo: real, hi: real)
    requires forall i :: 0 <= i < |xs| ==> lo <= xs[i] <= hi
    ensures |xs| as real * lo <= SumReal(xs) <= |xs| as real * hi
  {
    if xs != [] {
      SumRealBounds(xs[..|xs| - 1], lo, hi);
    }
  }

  /** Arithmetic mean of a non-empty list. */
  function Mean(xs: seq<real>): (m: real)
    requires |xs| > 0
  {
    SumReal(xs) / |xs| as real
  }

  /** The mean lies between the smallest and the largest bound of the elements. */
  lemma MeanBounds(xs: seq<real>, lo: real, hi: real)
    requires |xs| > 0
    requires forall i :: 0 <= i < |xs| ==> lo <= xs[i] <= hi
    ensures lo <= Mean(xs) <= hi
  {
    SumRealBounds(xs, lo, hi);
    var n := |xs| as real;
    assert n * lo <= SumReal(xs) <= n * hi;
    assert SumReal(xs) / n >= lo by {
      assert SumReal(xs) >= lo * n;
    }
    assert SumReal(xs) / n <= hi by {
      assert SumReal(xs) <= hi * n;
    }
  }

  /** Python's `int(x)` for a float `x`: truncation toward zero. */
  function Trunc(x: real): (n: int)
    ensures x >= 0.0 ==> n as real <= x < n as real + 1.0
    ensures x < 0.0 ==> n as real - 1.0 < x <= n as real
    ensures x == 0.0 ==> n == 0
  {
    if x >= 0.0 then x.Floor else -((-x).Floor)
  }

  /** Python's `round(x, 2)` on an exact value: the nearest whole number of
      hundredths, a tie going to the even one. */
  function Round2(x: real): (r: real)
    ensures (r * 100.0).Floor as real == r * 100.0
    ensures x - 0.005 <= r <= x + 0.005
    ensures (x * 100.0).Floor as real == x * 100.0 ==> r == x
  {
    var y := x * 100.0;
    var f := y.Floor;
    var d := y - f as real;
    var n := if d < 0.5 then f else if d > 0.5 then f + 1 else if f % 2 == 0 then f else f + 1;
    assert (n as real - y) <= 0.5 && (y - n as real) <= 0.5;
    var r := n as real / 100.0;
    assert r * 100.0 == n as real;
    r
  }

  /** A product with a non-zero integer factor is at least as large in
      magnitude as the other factor. */
  lemma {:induction false} MulMagnitude(v: int, d: int)
    decreases if d >= 0 then d else -d
    ensures v > 0 && d >= 1 ==> v * d >= v
    ensures v > 0 && d <= -1 ==> v * d <= -v
    ensures v < 0 && d >= 1 ==> v * d <= v
    ensures v < 0 && d <= -1 ==> v * d >= -v
  {
    if d >= 1 {
      assert v * d == v + v * (d - 1);
      MulMagnitude(v, d - 1);
    } else if d <= -1 {
      assert v * d == -v + v * (d + 1);
      MulMagnitude(v, d + 1);
    }
  }

  /** Multiplying by a non-zero `v` and dividing by it again gives `c` back. */
  lemma MulDivCancel(c: int, v: int)
    requires v != 0
    ensures (c * v) / v == c
  {
    var q := (c * v) / v;
    var r := (c * v) % v;
    assert v * (c - q) == r by {
      assert c * v == v * q + r;
      assert v * (c - q) == v * c - v * q;
    }
    MulMagnitude(v, c - q);
  }

  function Abs(x: real): (r: real)
    ensures r >= 0.0 && (r == x || r == -x)
  {
    if x < 0.0 then -x else x
  }

  function MinReal(a: real, b: real): (r: real)
    ensures r <= a && r <= b && (r == a || r == b)
  {
    if a <= b then a else b
  }

  function MaxReal(a: real, b: real): (r: real)
    ensures r >= a && r >= b && (r == a || r == b)
  {
    if a >= b then a else b
  }

  /** For a positive divisor, comparing a quotient with a bound is a
      product test. */
  lemma QuotientBelow(a: real, b: real, c: real)
    requires b > 0.0
    ensures a / b < c <==> a < c * b
    ensures a / b <= c <==> a <= c * b
  {
    assert a == (a / b) * b;
  }
}
