/** Sums, deviations and clamps over reals, shared by the scoring code of several apps. */
module Reals {
  /** Python sum() / JS reduce((a, b) => a + b, 0). */
  function Sum(values: seq<real>): real
  {
    if values == [] then 0.0 else values[0] + Sum(values[1..])
  }

  function SquaredDeviations(values: seq<real>, m: real): (r: real)
    ensures r >= 0.0
  {
    if values == [] then 0.0
    else
      var dev := values[0] - m;
      assert dev * dev >= 0.0 by {
        if dev < 0.0 { assert dev * dev == (-dev) * (-dev); }
      }
      dev * dev + SquaredDeviations(values[1..], m)
  }

  lemma {:induction false} SumConstant(values: seq<real>, c: real)
    requires forall i :: 0 <= i < |values| ==> values[i] == c
    ensures Sum(values) == |values| as real * c
  {
    if values != [] {
      SumConstant(values[1..], c);
    }
  }

  lemma {:induction false} DeviationsFromConstant(values: seq<real>, c: real)
    requires forall i :: 0 <= i < |values| ==> values[i] == c
    ensures SquaredDeviations(values, c) == 0.0
  {
    if values != [] {
      DeviationsFromConstant(values[1..], c);
    }
  }

  /** A sum of n values each within [lo, hi] lies within [n lo, n hi]. */
  lemma {:induction false} SumBounds(values: seq<real>, lo: real, hi: real)
    requires forall i :: 0 <= i < |values| ==> lo <= values[i] <= hi
    ensures |values| as real * lo <= Sum(values) <= |values| as real * hi
  {
    if values != [] {
      SumBounds(values[1..], lo, hi);
    }
  }

  lemma {:induction false} SumAppend(a: seq<real>, b: seq<real>)
    ensures Sum(a + b) == Sum(a) + Sum(b)
  {
    if a == [] {
      assert a + b == b;
    } else {
      assert (a + b)[1..] == a[1..] + b;
      SumAppend(a[1..], b);
    }
  }

  function Abs(x: real): (r: real)
    ensures r >= 0.0 && (r == x || r == -x)
  {
    if x < 0.0 then -x else x
  }

  function Min(a: real, b: real): (r: real)
    ensures r <= a && r <= b && (r == a || r == b)
  {
    if a <= b then a else b
  }

  function Max(a: real, b: real): (r: real)
    ensures r >= a && r >= b && (r == a || r == b)
  {
    if a >= b then a else b
  }

  /** Dividing by a positive number keeps the order. */
  lemma QuotientMonotonic(x: real, y: real, d: real)
    requires d > 0.0 && x <= y
    ensures x / d <= y / d
  {
    var qx, qy := x / d, y / d;
    assert qx * d == x && qy * d == y;
  }

  /** The sign of a quotient by a positive divisor is the sign of the dividend, and a
      dividend no larger than the divisor gives at most 1. */
  lemma QuotientSign(x: real, d: real)
    requires d > 0.0
    ensures x / d > 0.0 <==> x > 0.0
    ensures x / d < 0.0 <==> x < 0.0
    ensures x <= d ==> x / d <= 1.0
    ensures x == d ==> x / d == 1.0
  {
    var q := x / d;
    assert q * d == x;
    if q > 0.0 {
      assert q * d > 0.0 * d;
    } else if q < 0.0 {
      assert q * d < 0.0 * d;
    }
    if q > 1.0 {
      assert q * d > 1.0 * d;
    }
  }

  /** max(lo, min(hi, x)) */
  function Clamp(x: real, lo: real, hi: real): (r: real)
    requires lo <= hi
    ensures lo <= r <= hi
    ensures lo <= x <= hi ==> r == x
    ensures x < lo ==> r == lo
    ensures x > hi ==> r == hi
  {
    if x < lo then lo else if x > hi then hi else x
  }

  /** max(lo, min(hi, x)) on integers. */
  function ClampInt(x: int, lo: int, hi: int): (r: int)
    requires lo <= hi
    ensures lo <= r <= hi
    ensures lo <= x <= hi ==> r == x
    ensures x < lo ==> r == lo
    ensures x > hi ==> r == hi
  {
    if x < lo then lo else if x > hi then hi else x
  }

  /** Python round(x): the nearest integer, ties going to the even neighbour. */
  function RoundHalfEven(x: real): (r: int)
    ensures x - 0.5 <= r as real <= x + 0.5
    ensures x - x.Floor as real != 0.5 ==> x - 0.5 < r as real < x + 0.5
    ensures x - x.Floor as real == 0.5 ==> r % 2 == 0
  {
    var f := x.Floor;
    var d := x - f as real;
    if d < 0.5 then f
    else if d > 0.5 then f + 1
    else if f % 2 == 0 then f
    else f + 1
  }
}
