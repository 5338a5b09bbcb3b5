/** Exact (real-valued) versions of the pandas/numpy reductions that the
    analysis code applies to one group's values: sum, mean, sample variance,
    sorting, numpy's default (linear) percentile, pandas' median and
    `np.linspace`. */
module Samples {
  import opened Floats

  function Sum(s: seq<real>): real
  {
    if |s| == 0 then 0.0 else Sum(s[..|s| - 1]) + s[|s| - 1]
  }

  /** `np.mean` / `Series.mean()` of a non-empty sample. */
  function Mean(s: seq<real>): real
    requires |s| > 0
  {
    Sum(s) / (|s| as real)
  }

  /** Sum of squared deviations from `m`; never negative. */
  function SquaredDeviations(s: seq<real>, m: real): (r: real)
    ensures r >= 0.0
  {
    if |s| == 0 then 0.0
    else
      var d := s[|s| - 1] - m;
      MulNonNegative(if d < 0.0 then -d else d, if d < 0.0 then -d else d);
      SquaredDeviations(s[..|s| - 1], m) + d * d
  }

  lemma MulNonNegative(a: real, b: real)
    requires a >= 0.0 && b >= 0.0
    ensures a * b >= 0.0
  {
  }

  lemma MulMonotone(t1: real, t2: real, d: real)
    requires t1 <= t2 && d >= 0.0
    ensures t1 * d <= t2 * d
  {
    MulNonNegative(t2 - t1, d);
    assert (t2 - t1) * d == t2 * d - t1 * d;
  }

  lemma MulStrictlyMonotone(t1: real, t2: real, d: real)
    requires t1 < t2 && d > 0.0
    ensures t1 * d < t2 * d
  {
    assert (t2 - t1) * d > 0.0;
    assert (t2 - t1) * d == t2 * d - t1 * d;
  }

  /** `Series.var()` (ddof = 1): NaN for fewer than two values. */
  function Variance(s: seq<real>): (r: Float)
    ensures r.Finite? <==> |s| >= 2
    ensures r.Finite? ==> r.value >= 0.0
  {
    if |s| < 2 then NaN
    else Finite(SquaredDeviations(s, Mean(s)) / ((|s| - 1) as real))
  }

  predicate IsSorted(s: seq<real>)
  {
    forall i, j :: 0 <= i < j < |s| ==> s[i] <= s[j]
  }

  /** Places `x` before the first element it does not exceed. */
  function Insert(x: real, s: seq<real>): (r: seq<real>)
    ensures |r| == |s| + 1
  {
    if |s| == 0 then [x]
    else if x <= s[0] then [x] + s
    else [s[0]] + Insert(x, s[1..])
  }

  /** Inserting adds exactly `x` to the values. */
  lemma {:induction false} InsertPermutes(x: real, s: seq<real>)
    ensures multiset(Insert(x, s)) == multiset(s) + multiset{x}
  {
    if |s| > 0 && x > s[0] {
      InsertPermutes(x, s[1..]);
      assert s == [s[0]] + s[1..];
    }
  }

  /** Inserting into a sorted sample keeps it sorted. */
  lemma {:induction false} InsertSorted(x: real, s: seq<real>)
    requires IsSorted(s)
    ensures IsSorted(Insert(x, s))
  {
    if |s| > 0 && x > s[0] {
      var rest := Insert(x, s[1..]);
      InsertSorted(x, s[1..]);
      InsertPermutes(x, s[1..]);
      assert s == [s[0]] + s[1..];
      forall k | 0 <= k < |rest| ensures s[0] <= rest[k] {
        assert rest[k] in multiset(rest);
      }
      assert Insert(x, s) == [s[0]] + rest;
    }
  }

  /** `np.sort`: the values in ascending order (`SortSorted`,
      `SortPermutes`). */
  function Sort(s: seq<real>): (r: seq<real>)
    ensures |r| == |s|
  {
    if |s| == 0 then [] else Insert(s[0], Sort(s[1..]))
  }

  /** `Sort` returns its input in ascending order. */
  lemma {:induction false} SortSorted(s: seq<real>)
    ensures IsSorted(Sort(s))
  {
    if |s| > 0 {
      SortSorted(s[1..]);
      InsertSorted(s[0], Sort(s[1..]));
    }
  }

  /** `Sort` returns a permutation of its input. */
  lemma {:induction false} SortPermutes(s: seq<real>)
    ensures multiset(Sort(s)) == multiset(s)
  {
    if |s| > 0 {
      SortPermutes(s[1..]);
      InsertPermutes(s[0], Sort(s[1..]));
      assert s == [s[0]] + s[1..];
    }
  }

  function Minimum(s: seq<real>): (m: real)
    requires |s| > 0
    ensures m in s
    ensures forall x :: x in s ==> m <= x
  {
    if |s| == 1 then s[0]
    else
      var m := Minimum(s[1..]);
      assert s == [s[0]] + s[1..];
      if s[0] <= m then s[0] else m
  }

  function Maximum(s: seq<real>): (m: real)
    requires |s| > 0
    ensures m in s
    ensures forall x :: x in s ==> x <= m
  {
    if |s| == 1 then s[0]
    else
      var m := Maximum(s[1..]);
      assert s == [s[0]] + s[1..];
      if s[0] >= m then s[0] else m
  }

  /** The point a fraction `t` of the way from `x` to `y`. */
  function Lerp(x: real, y: real, t: real): real
  {
    x + t * (y - x)
  }

  lemma LerpBetween(x: real, y: real, t: real)
    requires x <= y && 0.0 <= t <= 1.0
    ensures x <= Lerp(x, y, t) <= y
  {
    MulNonNegative(t, y - x);
    MulMonotone(t, 1.0, y - x);
  }

  /** Further along the segment from `x` up to `y` is no lower. */
  lemma LerpMonotone(x: real, y: real, t1: real, t2: real)
    requires x <= y && t1 <= t2
    ensures Lerp(x, y, t1) <= Lerp(x, y, t2)
  {
    MulMonotone(t1, t2, y - x);
  }

  /** numpy's linear interpolation between the order statistics of a sorted
      sample, at the (fractional) position `h`. */
  function Interpolate(a: seq<real>, h: real): real
    requires |a| > 0 && 0.0 <= h <= (|a| - 1) as real
  {
    var lo := h.Floor;
    if lo + 1 < |a| then Lerp(a[lo], a[lo + 1], h - lo as real) else a[lo]
  }

  /** The position numpy interpolates at for the `q`-th percentile of `n`
      values. */
  function Position(n: nat, q: real): (h: real)
    requires n > 0 && 0.0 <= q <= 100.0
    ensures 0.0 <= h <= (n - 1) as real
  {
    MulNonNegative((n - 1) as real, q);
    MulMonotone(q, 100.0, (n - 1) as real);
    ((n - 1) as real) * q / 100.0
  }

  lemma PositionMonotone(n: nat, q1: real, q2: real)
    requires n > 0 && 0.0 <= q1 <= q2 <= 100.0
    ensures Position(n, q1) <= Position(n, q2)
  {
    MulMonotone(q1, q2, (n - 1) as real);
  }

  /** `np.percentile(s, q)` with numpy's default (linear) method. */
  function Percentile(s: seq<real>, q: real): real
    requires |s| > 0 && 0.0 <= q <= 100.0
  {
    Interpolate(Sort(s), Position(|s|, q))
  }

  /** `Series.median()`: the middle value, or the average of the two middle
      values of an even-sized sample. */
  function Median(s: seq<real>): real
    requires |s| > 0
  {
    var a := Sort(s);
    if |a| % 2 == 1 then a[|a| / 2] else (a[|a| / 2 - 1] + a[|a| / 2]) / 2.0
  }

  /** `np.linspace(lo, hi, n)` for `n >= 2`. */
  function Linspace(lo: real, hi: real, n: nat): (r: seq<real>)
    requires n >= 2
    ensures |r| == n && r[0] == lo && r[n - 1] == hi
    ensures lo < hi ==> forall i, j :: 0 <= i < j < n ==> r[i] < r[j]
  {
    var step := (hi - lo) / ((n - 1) as real);
    var r := seq(n, i => GridPoint(lo, step, i));
    assert r[n - 1] == hi by {
      GridEnd(lo, hi, n - 1);
    }
    assert lo < hi ==> forall i, j :: 0 <= i < j < n ==> r[i] < r[j] by {
      if lo < hi {
        assert step > 0.0;
        GridIncreasing(lo, step, n);
      }
    }
    r
  }

  /** The grid from `lo` with `k` equal steps up to `hi` ends at `hi`. */
  lemma GridEnd(lo: real, hi: real, k: nat)
    requires k > 0
    ensures GridPoint(lo, (hi - lo) / (k as real), k) == hi
  {
    var d := k as real;
    assert d * ((hi - lo) / d) == hi - lo;
  }

  /** The `i`-th point of an evenly spaced grid starting at `lo`. */
  function GridPoint(lo: real, step: real, i: int): real
  {
    lo + (i as real) * step
  }

  /** Points a positive step apart increase. */
  lemma GridIncreasing(lo: real, step: real, n: nat)
    requires step > 0.0
    ensures forall i, j :: 0 <= i < j < n ==> GridPoint(lo, step, i) < GridPoint(lo, step, j)
  {
    forall i, j | 0 <= i < j < n
      ensures GridPoint(lo, step, i) < GridPoint(lo, step, j)
    {
      MulStrictlyMonotone(i as real, j as real, step);
    }
  }

  // ---------------------------------------------------------------------
  // Properties of the percentile and the median
  // ---------------------------------------------------------------------

  /** Interpolation in a sorted sample stays between its smallest and
      largest element. */
  lemma InterpolateWithin(a: seq<real>, h: real)
    requires |a| > 0 && 0.0 <= h <= (|a| - 1) as real && IsSorted(a)
    ensures a[0] <= Interpolate(a, h) <= a[|a| - 1]
  {
    var lo := h.Floor;
    if lo + 1 < |a| {
      LerpBetween(a[lo], a[lo + 1], h - lo as real);
    }
  }

  /** Interpolation in a sorted sample is monotone in the position. */
  lemma InterpolateMonotone(a: seq<real>, h1: real, h2: real)
    requires |a| > 0 && IsSorted(a)
    requires 0.0 <= h1 <= h2 <= (|a| - 1) as real
    ensures Interpolate(a, h1) <= Interpolate(a, h2)
  {
    var lo1, lo2 := h1.Floor, h2.Floor;
    var t1, t2 := h1 - lo1 as real, h2 - lo2 as real;
    if lo1 == lo2 {
      if lo1 + 1 < |a| {
        assert a[lo1] <= a[lo1 + 1];
        LerpMonotone(a[lo1], a[lo1 + 1], t1, t2);
      }
    } else {
      assert lo1 < lo2 && lo1 + 1 < |a|;
      LerpBetween(a[lo1], a[lo1 + 1], t1);
      assert a[lo1 + 1] <= a[lo2];
      if lo2 + 1 < |a| {
        LerpBetween(a[lo2], a[lo2 + 1], t2);
      }
    }
  }

  /** A percentile lies between the sample's minimum and maximum. */
  lemma PercentileWithinRange(s: seq<real>, q: real)
    requires |s| > 0 && 0.0 <= q <= 100.0
    ensures Minimum(s) <= Percentile(s, q) <= Maximum(s)
  {
    var a := Sort(s);
    var h := Position(|s|, q);
    SortSorted(s);
    SortPermutes(s);
    InterpolateWithin(a, h);
    var lo, hi := a[0], a[|a| - 1];
    assert lo in s by { assert lo in multiset(a); }
    assert hi in s by { assert hi in multiset(a); }
    assert Percentile(s, q) == Interpolate(a, h);
  }

  /** A lower percentile never exceeds a higher one. */
  lemma PercentileMonotone(s: seq<real>, q1: real, q2: real)
    requires |s| > 0 && 0.0 <= q1 <= q2 <= 100.0
    ensures Percentile(s, q1) <= Percentile(s, q2)
  {
    PositionMonotone(|s|, q1, q2);
    SortSorted(s);
    InterpolateMonotone(Sort(s), Position(|s|, q1), Position(|s|, q2));
  }

  /** pandas' median is numpy's 50th percentile. */
  lemma MedianIsFiftiethPercentile(s: seq<real>)
    requires |s| > 0
    ensures Median(s) == Percentile(s, 50.0)
  {
    var n := |s|;
    var h := Position(n, 50.0);
    assert h == ((n - 1) as real) / 2.0;
    if n % 2 == 1 {
      var k := n / 2;
      assert n == 2 * k + 1;
      assert h == k as real;
      assert h.Floor == k;
    } else {
      var k := n / 2;
      assert n == 2 * k && k >= 1;
      assert h == (k - 1) as real + 0.5;
      assert h.Floor == k - 1;
      var a := Sort(s);
      assert Percentile(s, 50.0) == Lerp(a[k - 1], a[k], 0.5);
    }
  }
}
