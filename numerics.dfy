/**
 * The numpy primitives the colouring code relies on, over exact reals:
 * `min`/`max` of an array, `linspace(0, 1, n)`, `interp` and the `astype(uint8)` cast.
 */
module Numerics {

  predicate StrictlyIncreasing(xs: seq<real>) {
    forall i, j :: 0 <= i < j < |xs| ==> xs[i] < xs[j]
  }

  /** `v` lies between `a` and `b`, in whichever order they come. */
  predicate Between(v: real, a: real, b: real) {
    (a <= v <= b) || (b <= v <= a)
  }

  /** `np.min`: an element of the array that no element undercuts. */
  function Min(s: seq<real>): (m: real)
    requires |s| > 0
    ensures exists i :: 0 <= i < |s| && s[i] == m
    ensures forall i :: 0 <= i < |s| ==> m <= s[i]
  {
    if |s| == 1 then s[0]
    else
      var rest := Min(s[1..]);
      assert forall i :: 1 <= i < |s| ==> s[i] == s[1..][i - 1];
      if s[0] <= rest then s[0] else rest
  }

  /** `np.max`: an element of the array that no element exceeds. */
  function Max(s: seq<real>): (m: real)
    requires |s| > 0
    ensures exists i :: 0 <= i < |s| && s[i] == m
    ensures forall i :: 0 <= i < |s| ==> s[i] <= m
  {
    if |s| == 1 then s[0]
    else
      var rest := Max(s[1..]);
      assert forall i :: 1 <= i < |s| ==> s[i] == s[1..][i - 1];
      if s[0] >= rest then s[0] else rest
  }

  /** Min-max normalisation `(v - lo) / (hi - lo)` of a value of a non-degenerate range. */
  function Rescale(v: real, lo: real, hi: real): (t: real)
    requires lo < hi
    ensures lo <= v <= hi ==> 0.0 <= t <= 1.0
    ensures t == 0.0 <==> v == lo
    ensures t == 1.0 <==> v == hi
  {
    QuotientFacts(v - lo, hi - lo);
    (v - lo) / (hi - lo)
  }

  /** How a quotient by a positive divisor compares with 0 and 1. */
  lemma QuotientFacts(a: real, d: real)
    requires d > 0.0
    ensures a / d >= 0.0 <==> a >= 0.0
    ensures a / d <= 1.0 <==> a <= d
    ensures a / d == 0.0 <==> a == 0.0
    ensures a / d == 1.0 <==> a == d
  {
    var q := a / d;
    assert q * d == a;
    if q < 0.0 { assert q * d < 0.0; }
    if q > 1.0 { assert q * d - d == (q - 1.0) * d; assert (q - 1.0) * d > 0.0; }
    if q < 1.0 { assert d - q * d == (1.0 - q) * d; assert (1.0 - q) * d > 0.0; }
    if q > 0.0 { assert q * d > 0.0; }
  }

  /** Rescaling preserves the order of values. */
  lemma RescaleMonotone(u: real, v: real, lo: real, hi: real)
    requires lo < hi && u <= v
    ensures Rescale(u, lo, hi) <= Rescale(v, lo, hi)
  {
    var d := hi - lo;
    assert (v - lo) / d - (u - lo) / d == (v - u) / d;
  }

  /** `np.linspace(0, 1, n)`: n evenly spaced stops from 0 to 1, the k-th at k/(n-1). */
  function Linspace(n: nat): (xs: seq<real>)
    ensures |xs| == n
    ensures n >= 1 ==> xs[0] == 0.0
    ensures n >= 2 ==> xs[n - 1] == 1.0
    ensures StrictlyIncreasing(xs)
  {
    if n == 1 then [0.0]
    else
      var xs := seq(n, k => k as real / (n - 1) as real);
      forall i, j | 0 <= i < j < n ensures xs[i] < xs[j] {
        DivideMonotone(i as real, j as real, (n - 1) as real);
      }
      if n >= 2 then
        assert xs[n - 1] == 1.0 by { SelfQuotient((n - 1) as real); }
        xs
      else xs
  }

  lemma SelfQuotient(d: real)
    requires d > 0.0
    ensures d / d == 1.0
  {
  }

  lemma DivideMonotone(a: real, b: real, d: real)
    requires a < b && d > 0.0
    ensures a / d < b / d
  {
    assert b / d - a / d == (b - a) / d;
  }

  /**
   * `np.interp(x, xp, fp)` for increasing sample points `xp`: the value at or
   * below the first point is `fp[0]`, at or above the last one `fp[|fp|-1]`,
   * and in between the straight line through the two bracketing samples.
   */
  function Interp(x: real, xp: seq<real>, fp: seq<real>): (y: real)
    requires |xp| == |fp| >= 1
    requires StrictlyIncreasing(xp)
    ensures x <= xp[0] ==> y == fp[0]
    ensures x >= xp[|xp| - 1] ==> y == fp[|fp| - 1]
    decreases |xp|
  {
    if |xp| == 1 || x <= xp[0] then fp[0]
    else if x < xp[1] then
      assert x < xp[|xp| - 1] by { assert xp[1] <= xp[|xp| - 1]; }
      (fp[1] - fp[0]) / (xp[1] - xp[0]) * (x - xp[0]) + fp[0]
    else
      assert xp[1..][|xp| - 2] == xp[|xp| - 1] && fp[1..][|fp| - 2] == fp[|fp| - 1];
      Interp(x, xp[1..], fp[1..])
  }

  /** The straight line between two samples stays between their values. */
  lemma SegmentBetween(x: real, x0: real, x1: real, y0: real, y1: real)
    requires x0 < x1 && x0 <= x <= x1
    ensures Between((y1 - y0) / (x1 - x0) * (x - x0) + y0, y0, y1)
  {
    var t := (x - x0) / (x1 - x0);
    QuotientFacts(x - x0, x1 - x0);
    assert 0.0 <= t <= 1.0;
    assert (y1 - y0) / (x1 - x0) * (x - x0) == t * (y1 - y0);
    if y0 <= y1 {
      assert 0.0 <= t * (y1 - y0) <= y1 - y0;
    } else {
      assert y1 - y0 <= t * (y1 - y0) <= 0.0;
    }
  }

  /** At a sample point, interpolation returns exactly that sample's value. */
  lemma {:induction false} InterpAtSample(xp: seq<real>, fp: seq<real>, k: nat)
    requires |xp| == |fp| >= 1 && StrictlyIncreasing(xp)
    requires k < |xp|
    ensures Interp(xp[k], xp, fp) == fp[k]
    decreases k
  {
    if k > 0 {
      assert xp[0] < xp[k];
      assert xp[1] <= xp[k];
      assert xp[1..][k - 1] == xp[k];
      InterpAtSample(xp[1..], fp[1..], k - 1);
    }
  }

  /** Between two consecutive sample points the result lies between their two values. */
  lemma {:induction false} InterpBracketed(x: real, xp: seq<real>, fp: seq<real>, k: nat)
    requires |xp| == |fp| >= 1 && StrictlyIncreasing(xp)
    requires k + 1 < |xp| && xp[k] <= x <= xp[k + 1]
    ensures Between(Interp(x, xp, fp), fp[k], fp[k + 1])
    decreases k
  {
    if k == 0 {
      if x <= xp[0] {
        assert Interp(x, xp, fp) == fp[0];
      } else if x < xp[1] {
        SegmentBetween(x, xp[0], xp[1], fp[0], fp[1]);
        assert Interp(x, xp, fp) == (fp[1] - fp[0]) / (xp[1] - xp[0]) * (x - xp[0]) + fp[0];
      } else {
        assert x <= xp[1..][0];
        assert Interp(x, xp, fp) == Interp(x, xp[1..], fp[1..]) == fp[1..][0];
      }
    } else {
      assert xp[0] < xp[1] <= xp[k];
      InterpBracketed(x, xp[1..], fp[1..], k - 1);
      assert Interp(x, xp, fp) == Interp(x, xp[1..], fp[1..]);
    }
  }

  /** Interpolation never leaves a range that holds every sample value. */
  lemma {:induction false} InterpWithin(x: real, xp: seq<real>, fp: seq<real>, lo: real, hi: real)
    requires |xp| == |fp| >= 1 && StrictlyIncreasing(xp)
    requires forall i :: 0 <= i < |fp| ==> lo <= fp[i] <= hi
    ensures lo <= Interp(x, xp, fp) <= hi
    decreases |xp|
  {
    if |xp| == 1 || x <= xp[0] {
    } else if x < xp[1] {
      SegmentBetween(x, xp[0], xp[1], fp[0], fp[1]);
      assert lo <= fp[0] <= hi && lo <= fp[1] <= hi;
      assert Interp(x, xp, fp) == (fp[1] - fp[0]) / (xp[1] - xp[0]) * (x - xp[0]) + fp[0];
    } else {
      InterpWithin(x, xp[1..], fp[1..], lo, hi);
    }
  }

  /**
   * numpy's `astype(np.uint8)` on a float: truncation toward zero, then
   * wrap-around modulo 256. Within [0, 256) it is plain truncation.
   */
  function Uint8(x: real): (b: int)
    ensures 0 <= b < 256
    ensures 0.0 <= x < 256.0 ==> b == x.Floor
  {
    var t := if x >= 0.0 then x.Floor else -((-x).Floor);
    t % 256
  }

  /** Truncation keeps the order of values. */
  lemma FloorMonotone(x: real, y: real)
    requires x <= y
    ensures x.Floor <= y.Floor
  {
    assert x.Floor as real <= x < x.Floor as real + 1.0;
    assert y.Floor as real <= y < y.Floor as real + 1.0;
  }

  /** Truncating a value that lies between two integers keeps it between them. */
  lemma FloorBetween(v: real, a: int, b: int)
    requires Between(v, a as real, b as real)
    ensures Between(v.Floor as real, a as real, b as real)
  {
    if a <= b {
      FloorMonotone(a as real, v);
      FloorMonotone(v, b as real);
    } else {
      FloorMonotone(b as real, v);
      FloorMonotone(v, a as real);
    }
  }
}
