// Python's numeric built-ins as the core uses them on floats (modelled as
// exact reals): `int()` truncation, `//` and `%` on floats, `round()` with
// ties to even, `min`/`max` and clamping.

module PyMath {

  function Min(a: real, b: real): real { if a <= b then a else b }
  function Max(a: real, b: real): real { if a >= b then a else b }
  function Abs(a: real): real { if a < 0.0 then -a else a }
  function MinInt(a: int, b: int): int { if a <= b then a else b }
  function MaxInt(a: int, b: int): int { if a >= b then a else b }

  /** `max(lo, min(hi, v))`. */
  function Clamp(v: real, lo: real, hi: real): (r: real)
    requires lo <= hi
    ensures lo <= r <= hi
    ensures lo <= v <= hi ==> r == v
  {
    Max(lo, Min(hi, v))
  }

  /** `int(v)`: truncation toward zero. */
  function Trunc(v: real): (n: int)
    ensures Abs(n as real) <= Abs(v) && Abs(v) < Abs(n as real) + 1.0
    ensures (n < 0 ==> v < 0.0) && (v < 0.0 ==> n <= 0)
  {
    if v >= 0.0 then v.Floor else -((-v).Floor)
  }

  /** `v // d` on floats: the floor of the quotient. */
  function FloorDiv(v: real, d: real): (q: int)
    requires d > 0.0
    ensures (q as real) * d <= v < ((q + 1) as real) * d
  {
    var t := v / d;
    var k := t.Floor;
    assert t * d == v;
    MulMonotone(k as real, t, d);
    MulStrict(t, (k + 1) as real, d);
    assert v < ((k + 1) as real) * d;
    k
  }

  lemma MulMonotone(a: real, b: real, d: real)
    requires a <= b && d > 0.0
    ensures a * d <= b * d
  {
  }

  lemma MulStrict(a: real, b: real, d: real)
    requires a < b && d > 0.0
    ensures a * d < b * d
  {
  }

  /** `v % d` on floats: the remainder with the sign of the divisor. */
  function FloorMod(v: real, d: real): (m: real)
    requires d > 0.0
    ensures 0.0 <= m < d
    ensures v == FloorDiv(v, d) as real * d + m
  {
    v - FloorDiv(v, d) as real * d
  }

  /** Python's `round(v)`: to the nearest integer, ties to the even one. */
  function RoundHalfEven(v: real): (n: int)
    ensures Abs(n as real - v) <= 0.5
    ensures Abs(n as real - v) == 0.5 ==> n % 2 == 0
    ensures v >= 0.0 ==> n >= 0
  {
    var f := v.Floor;
    var frac := v - f as real;
    if frac < 0.5 then f
    else if frac > 0.5 then f + 1
    else if f % 2 == 0 then f else f + 1
  }

  /** Rounding is monotone, so a value in [0, k] rounds into [0, k]. */
  lemma RoundWithin(v: real, k: int)
    requires 0.0 <= v <= k as real
    ensures 0 <= RoundHalfEven(v) <= k
  {
  }

  /** `a * w + b * (1 - w)`: the weighted blend of two scores. */
  function Mix(a: real, b: real, w: real): real
  {
    a * w + b * (1.0 - w)
  }

  /** A blend with a weight in [0, 1] lies between the two scores; weight 1
      gives the first and weight 0 the second. */
  lemma MixBetween(a: real, b: real, w: real)
    requires 0.0 <= w <= 1.0
    ensures Min(a, b) <= Mix(a, b, w) <= Max(a, b)
    ensures w == 1.0 ==> Mix(a, b, w) == a
    ensures w == 0.0 ==> Mix(a, b, w) == b
  {
    var d := a - b;
    assert Mix(a, b, w) == b + d * w;
    UnitScale(d, w);
    if d >= 0.0 {
      assert b <= Mix(a, b, w) <= a;
    } else {
      assert a <= Mix(a, b, w) <= b;
    }
  }

  /** Scaling by a factor in [0, 1] moves a value toward 0 without passing it. */
  lemma UnitScale(d: real, w: real)
    requires 0.0 <= w <= 1.0
    ensures d >= 0.0 ==> 0.0 <= d * w <= d
    ensures d < 0.0 ==> d <= d * w <= 0.0
  {
    if d > 0.0 {
      MulMonotone(w, 1.0, d);
      MulMonotone(0.0, w, d);
    } else if d < 0.0 {
      MulMonotone(w, 1.0, -d);
      MulMonotone(0.0, w, -d);
    }
  }

  /** `sum(values)`, accumulated left to right. */
  function Sum(s: seq<real>): real
  {
    if s == [] then 0.0 else Sum(s[..|s| - 1]) + s[|s| - 1]
  }

  /** Values in [lo, hi] sum to between |s|·lo and |s|·hi. */
  lemma {:induction false} SumBounds(s: seq<real>, lo: real, hi: real)
    requires forall i :: 0 <= i < |s| ==> lo <= s[i] <= hi
    ensures |s| as real * lo <= Sum(s) <= |s| as real * hi
    decreases |s|
  {
    if s != [] {
      SumBounds(s[..|s| - 1], lo, hi);
      assert |s| as real * lo == (|s| - 1) as real * lo + lo;
      assert |s| as real * hi == (|s| - 1) as real * hi + hi;
    }
  }

  /** If the values sum to at least |s|·t, one of them is at least t. */
  lemma {:induction false} SomeAtLeastAverage(s: seq<real>, t: real)
    requires |s| > 0 && Sum(s) >= |s| as real * t
    ensures exists i :: 0 <= i < |s| && s[i] >= t
    decreases |s|
  {
    var last := |s| - 1;
    if s[last] < t {
      var init := s[..last];
      assert |s| as real * t == last as real * t + t;
      assert Sum(init) > last as real * t;
      SomeAtLeastAverage(init, t);
      var i :| 0 <= i < |init| && init[i] >= t;
      assert s[i] == init[i];
    }
  }

  /** `sum(values) / len(values)`. */
  function Mean(s: seq<real>): real
    requires |s| > 0
  {
    Sum(s) / |s| as real
  }

  /** The mean of values in [lo, hi] lies in [lo, hi]. */
  lemma MeanBounds(s: seq<real>, lo: real, hi: real)
    requires |s| > 0
    requires forall i :: 0 <= i < |s| ==> lo <= s[i] <= hi
    ensures lo <= Mean(s) <= hi
  {
    SumBounds(s, lo, hi);
    var n := |s| as real;
    var m := Mean(s);
    assert m * n == Sum(s);
    if m < lo { MulStrict(m, lo, n); }
    if m > hi { MulStrict(hi, m, n); }
  }

  /** A mean of at least t means some value is at least t. */
  lemma SomeAtLeastMean(s: seq<real>, t: real)
    requires |s| > 0 && Mean(s) >= t
    ensures exists i :: 0 <= i < |s| && s[i] >= t
  {
    var n := |s| as real;
    assert Mean(s) * n == Sum(s);
    MulMonotone(t, Mean(s), n);
    SomeAtLeastAverage(s, t);
  }

  /** Index of the element `max(values)` returns: the first of the maximal
      ones, as the scan keeps its candidate unless a later value is strictly
      greater. */
  function FirstMaxIndex(keys: seq<real>): (i: nat)
    requires |keys| > 0
    ensures i < |keys|
    ensures forall j :: 0 <= j < |keys| ==> keys[j] <= keys[i]
    ensures forall j :: 0 <= j < i ==> keys[j] < keys[i]
  {
    if |keys| == 1 then 0
    else
      var last := |keys| - 1;
      var b := FirstMaxIndex(keys[..last]);
      assert forall j :: 0 <= j < last ==> keys[..last][j] == keys[j];
      if keys[last] > keys[b] then last else b
  }
}
