/** The decision rules of `StatisticalTester` (utils/statistical_tester.py)
    that do not depend on its state: verdicts and test selection, effect
    sizes and their interpretation ladders, the bootstrap flag, the error
    matrix, the contingency table and the odds ratio, and the correlation
    ladder. */
module Decisions {
  import opened Outcomes
  import opened Floats
  import opened Samples

  datatype TestType = Parametric | NonParametric

  /** The four-step interpretation of an effect size. */
  datatype Band = VerySmall | Small | Medium | Large

  /** The five-step interpretation of a correlation coefficient. */
  datatype Strength = VeryWeak | Weak | Moderate | Strong | VeryStrong

  // ---------------------------------------------------------------------
  // Verdicts and test selection
  // ---------------------------------------------------------------------

  /** Python's `all(...)` over the per-group normality verdicts: `None` is
      falsy, so only `True` everywhere selects the parametric tests. */
  function AllNormal(verdicts: seq<Option<bool>>): (r: bool)
    ensures r <==> forall i | 0 <= i < |verdicts| :: verdicts[i] == Some(true)
  {
    if |verdicts| == 0 then true
    else verdicts[0] == Some(true) && AllNormal(verdicts[1..])
  }

  /** `determine_test_type`: the variance verdict plays no part. */
  function SelectTestType(verdicts: seq<Option<bool>>): (t: TestType)
    ensures t == Parametric <==> forall i | 0 <= i < |verdicts| :: verdicts[i] == Some(true)
    ensures (exists i | 0 <= i < |verdicts| :: verdicts[i] == None) ==> t == NonParametric
  {
    if AllNormal(verdicts) then Parametric else NonParametric
  }

  // ---------------------------------------------------------------------
  // Interpretation ladders
  // ---------------------------------------------------------------------

  predicate Increasing(cuts: seq<real>)
  {
    forall i, j :: 0 <= i < j < |cuts| ==> cuts[i] < cuts[j]
  }

  /** The step of an `if x < c1 ... elif x < c2 ...` ladder that `x` falls
      in: a comparison with NaN is false, so NaN lands on the last step. */
  function Step(x: Float, cuts: seq<real>): (r: nat)
    ensures r <= |cuts|
    ensures x.NaN? ==> r == |cuts|
    ensures Increasing(cuts) && x.Finite? ==>
              (forall i | 0 <= i < r :: cuts[i] <= x.value) && (r < |cuts| ==> x.value < cuts[r])
  {
    if |cuts| == 0 then 0
    else if Below(x, cuts[0]) then 0
    else
      var r := 1 + Step(x, cuts[1..]);
      assert Increasing(cuts) && x.Finite? ==> forall i | 1 <= i < r :: cuts[i] == cuts[1..][i - 1];
      r
  }

  /** A larger value never falls on a lower step. */
  lemma StepMonotone(x: real, y: real, cuts: seq<real>)
    requires Increasing(cuts) && x <= y
    ensures Step(Finite(x), cuts) <= Step(Finite(y), cuts)
  {
    var rx, ry := Step(Finite(x), cuts), Step(Finite(y), cuts);
    assert ry < |cuts| ==> y < cuts[ry];
  }

  function BandAt(i: nat): Band
  {
    if i == 0 then VerySmall else if i == 1 then Small else if i == 2 then Medium else Large
  }

  /** Cohen's d interpretation: |d| against 0.2, 0.5 and 0.8, each band closed
      on the left; an undefined d reads as large. */
  function CohenBand(d: Float): (b: Band)
    ensures d.Finite? ==>
              var m := if d.value < 0.0 then -d.value else d.value;
              && (b == VerySmall <==> m < 0.2)
              && (b == Small <==> 0.2 <= m < 0.5)
              && (b == Medium <==> 0.5 <= m < 0.8)
              && (b == Large <==> 0.8 <= m)
    ensures d.NaN? ==> b == Large
  {
    var cuts := [0.2, 0.5, 0.8];
    assert Increasing(cuts);
    BandAt(Step(Abs(d), cuts))
  }

  /** Eta-squared interpretation: against 0.01, 0.06 and 0.14. */
  function EtaBand(e: Float): (b: Band)
    ensures e.Finite? ==>
              && (b == VerySmall <==> e.value < 0.01)
              && (b == Small <==> 0.01 <= e.value < 0.06)
              && (b == Medium <==> 0.06 <= e.value < 0.14)
              && (b == Large <==> 0.14 <= e.value)
    ensures e.NaN? ==> b == Large
  {
    var cuts := [0.01, 0.06, 0.14];
    assert cuts[0] == 0.01 && cuts[1] == 0.06 && cuts[2] == 0.14;
    assert Increasing(cuts);
    BandAt(Step(e, cuts))
  }

  /** The interpretation of a larger |d| is never a smaller band. */
  lemma CohenBandMonotone(d1: real, d2: real)
    requires (if d1 < 0.0 then -d1 else d1) <= (if d2 < 0.0 then -d2 else d2)
    ensures BandRank(CohenBand(Finite(d1))) <= BandRank(CohenBand(Finite(d2)))
  {
    StepMonotone(if d1 < 0.0 then -d1 else d1, if d2 < 0.0 then -d2 else d2, [0.2, 0.5, 0.8]);
  }

  function BandRank(b: Band): nat
  {
    match b
    case VerySmall => 0
    case Small => 1
    case Medium => 2
    case Large => 3
  }

  function StrengthAt(i: nat): Strength
  {
    if i == 0 then VeryWeak else if i == 1 then Weak else if i == 2 then Moderate
    else if i == 3 then Strong else VeryStrong
  }

  /** `_interpret_correlation`: |r| against 0.1, 0.3, 0.5 and 0.7. */
  function CorrelationStrength(r: real): (s: Strength)
    ensures var m := if r < 0.0 then -r else r;
            && (s == VeryWeak <==> m < 0.1)
            && (s == Weak <==> 0.1 <= m < 0.3)
            && (s == Moderate <==> 0.3 <= m < 0.5)
            && (s == Strong <==> 0.5 <= m < 0.7)
            && (s == VeryStrong <==> 0.7 <= m)
  {
    var cuts := [0.1, 0.3, 0.5, 0.7];
    var m := if r < 0.0 then -r else r;
    assert Increasing(cuts) && Abs(Finite(r)) == Finite(m);
    var i := Step(Finite(m), cuts);
    assert cuts[0] == 0.1 && cuts[1] == 0.3 && cuts[2] == 0.5 && cuts[3] == 0.7;
    assert i == 0 ==> m < 0.1;
    assert i == 1 ==> 0.1 <= m < 0.3;
    assert i == 2 ==> 0.3 <= m < 0.5;
    assert i == 3 ==> 0.5 <= m < 0.7;
    assert i == 4 ==> 0.7 <= m;
    StrengthAt(i)
  }

  // ---------------------------------------------------------------------
  // Effect sizes
  // ---------------------------------------------------------------------

  /** `((n1 - 1) * var1 + (n2 - 1) * var2) / (n1 + n2 - 2)`, where a group of
      fewer than two values has a NaN variance. */
  function PooledVariance(s1: seq<real>, s2: seq<real>): (v: Float)
    ensures v.Finite? <==> |s1| >= 2 && |s2| >= 2
    ensures v.Finite? ==> v.value >= 0.0
  {
    var v1, v2 := Variance(s1), Variance(s2);
    if v1.NaN? || v2.NaN? then NaN
    else
      var num := ((|s1| - 1) as real) * v1.value + ((|s2| - 1) as real) * v2.value;
      MulNonNegative((|s1| - 1) as real, v1.value);
      MulNonNegative((|s2| - 1) as real, v2.value);
      Finite(num / ((|s1| + |s2| - 2) as real))
  }

  /** Cohen's d: the difference of the means over the pooled standard
      deviation. */
  function CohenD(s1: seq<real>, s2: seq<real>, root: real -> real): (d: Float)
    requires |s1| > 0 && |s2| > 0
    ensures |s1| < 2 || |s2| < 2 ==> d.NaN?
  {
    Div(Finite(Mean(s1) - Mean(s2)), Sqrt(PooledVariance(s1, s2), root))
  }

  /** With a positive pooled variance, d is finite and has the sign of
      mean1 - mean2. */
  lemma CohenDSign(s1: seq<real>, s2: seq<real>, root: real -> real)
    requires IsSqrt(root) && |s1| >= 2 && |s2| >= 2
    requires PooledVariance(s1, s2).value > 0.0
    ensures CohenD(s1, s2, root).Finite?
    ensures CohenD(s1, s2, root).value > 0.0 <==> Mean(s1) > Mean(s2)
    ensures CohenD(s1, s2, root).value < 0.0 <==> Mean(s1) < Mean(s2)
  {
    var v := PooledVariance(s1, s2).value;
    SqrtPositive(root, v);
    var sd := root(v);
    var diff := Mean(s1) - Mean(s2);
    assert CohenD(s1, s2, root) == Finite(diff / sd);
    assert (diff / sd) * sd == diff;
    if diff / sd > 0.0 {
      MulNonNegative(diff / sd, sd);
    }
    if diff / sd < 0.0 {
      MulNonNegative(-(diff / sd), sd);
    }
  }

  /** Eta-squared: the group sum of squares over the total. */
  function EtaSquared(ssGroup: real, ssResid: real): (e: Float)
    ensures ssGroup >= 0.0 && ssResid >= 0.0 && ssGroup + ssResid > 0.0 ==>
              e.Finite? && 0.0 <= e.value <= 1.0
    ensures ssGroup + ssResid == 0.0 ==> !e.Finite?
  {
    var total := ssGroup + ssResid;
    if ssGroup >= 0.0 && ssResid >= 0.0 && total > 0.0 then
      FractionBounds(ssGroup, total);
      Div(Finite(ssGroup), Finite(total))
    else Div(Finite(ssGroup), Finite(total))
  }

  lemma FractionBounds(a: real, t: real)
    requires 0.0 <= a <= t && t > 0.0
    ensures 0.0 <= a / t <= 1.0
  {
    var q := a / t;
    assert q * t == a;
    if q > 1.0 {
      MulPositive(q - 1.0, t);
    }
    if q < 0.0 {
      MulPositive(-q, t);
    }
  }

  lemma MulPositive(a: real, b: real)
    requires a > 0.0 && b > 0.0
    ensures a * b > 0.0
  {
  }

  /** `1 - x` on a float. */
  function OneMinus(x: Float): (r: Float)
    ensures OneMinusInverse(x, r)
  {
    match x
    case Finite(v) => Finite(1.0 - v)
    case Infinite(n) => Infinite(!n)
    case NaN => NaN
  }

  predicate OneMinusInverse(x: Float, r: Float)
  {
    && (x.Finite? <==> r.Finite?)
    && (x.Finite? ==> x.value + r.value == 1.0)
    && (x.NaN? <==> r.NaN?)
  }

  /** Cohen's f from eta-squared: `sqrt(eta / (1 - eta))`. */
  function EffectF(eta: Float, root: real -> real): (f: Float)
    ensures eta == Finite(1.0) ==> f == Infinite(false)
    ensures eta.NaN? ==> f.NaN?
  {
    Sqrt(Div(eta, OneMinus(eta)), root)
  }

  /** For eta-squared in [0, 1), f is the finite non-negative number whose
      square is eta / (1 - eta). */
  lemma EffectFDefined(eta: real, root: real -> real)
    requires IsSqrt(root) && 0.0 <= eta < 1.0
    ensures EffectF(Finite(eta), root).Finite?
    ensures EffectF(Finite(eta), root).value >= 0.0
    ensures EffectF(Finite(eta), root).value * EffectF(Finite(eta), root).value == eta / (1.0 - eta)
  {
    var q := eta / (1.0 - eta);
    assert q * (1.0 - eta) == eta;
    if q < 0.0 {
      MulNonNegative(-q, 1.0 - eta);
    }
    assert Div(Finite(eta), OneMinus(Finite(eta))) == Finite(q);
    assert root(q) >= 0.0 && root(q) * root(q) == q;
  }

  /** A float scaled by a non-negative constant (`effect_size * 0.95`). */
  function Scale(x: Float, c: real): Float
    requires c > 0.0
  {
    match x
    case Finite(v) => Finite(c * v)
    case Infinite(n) => Infinite(n)
    case NaN => NaN
  }

  // ---------------------------------------------------------------------
  // Error matrix
  // ---------------------------------------------------------------------

  /** `error_matrix`: decisions under a true difference (power column) and
      under no difference (alpha column). */
  datatype ErrorMatrix = ErrorMatrix(rejectTrueDiff: Float, notRejectTrueDiff: Float,
                                     rejectNoDiff: real, notRejectNoDiff: real)

  /** The matrix built from `type_2_error = 1 - power` and
      `type_1_error = alpha`. */
  function ErrorMatrixOf(power: Float, alpha: real): (m: ErrorMatrix)
    ensures m.rejectTrueDiff == power
    ensures OneMinusInverse(m.rejectTrueDiff, m.notRejectTrueDiff)
    ensures m.rejectNoDiff == alpha && m.rejectNoDiff + m.notRejectNoDiff == 1.0
  {
    var type2 := OneMinus(power);
    ErrorMatrix(OneMinus(type2), type2, alpha, 1.0 - alpha)
  }

  // ---------------------------------------------------------------------
  // Bootstrap
  // ---------------------------------------------------------------------

  /** The bootstrap difference is significant when both bounds are strictly
      positive or both strictly negative. */
  function ExcludesZero(lower: real, upper: real): (r: bool)
    ensures lower <= upper ==> (r <==> !(lower <= 0.0 <= upper))
  {
    (lower > 0.0 && upper > 0.0) || (lower < 0.0 && upper < 0.0)
  }

  /** `np.random.choice(data, size=len(data))` with the choices given. */
  predicate IsDraw(n: nat, idx: seq<nat>)
  {
    |idx| == n && forall k | 0 <= k < |idx| :: idx[k] < n
  }

  function Resample(data: seq<real>, idx: seq<nat>): (r: seq<real>)
    requires IsDraw(|data|, idx)
    ensures |r| == |data|
    ensures forall x | x in r :: x in data
  {
    seq(|idx|, k requires 0 <= k < |idx| => data[idx[k]])
  }

  /** The mean of every resample, in drawing order. */
  function BootstrapMeans(data: seq<real>, draws: seq<seq<nat>>): (r: seq<real>)
    requires |data| > 0
    requires forall i | 0 <= i < |draws| :: IsDraw(|data|, draws[i])
    ensures |r| == |draws|
  {
    seq(|draws|, i requires 0 <= i < |draws| => Mean(Resample(data, draws[i])))
  }

  /** The difference of the two resample means, in drawing order. */
  function BootstrapDiffs(d1: seq<real>, d2: seq<real>, draws: seq<(seq<nat>, seq<nat>)>): (r: seq<real>)
    requires |d1| > 0 && |d2| > 0
    requires forall i | 0 <= i < |draws| :: IsDraw(|d1|, draws[i].0) && IsDraw(|d2|, draws[i].1)
    ensures |r| == |draws|
  {
    seq(|draws|, i requires 0 <= i < |draws| =>
                   Mean(Resample(d1, draws[i].0)) - Mean(Resample(d2, draws[i].1)))
  }

  lemma {:induction false} SumBounds(s: seq<real>, lo: real, hi: real)
    requires forall x | x in s :: lo <= x <= hi
    ensures (|s| as real) * lo <= Sum(s) <= (|s| as real) * hi
  {
    if |s| > 0 {
      var n := |s| - 1;
      assert forall x | x in s[..n] :: x in s;
      assert s[n] in s;
      SumBounds(s[..n], lo, hi);
    }
  }

  /** A mean lies between the bounds of the values averaged. */
  lemma MeanBounds(s: seq<real>, lo: real, hi: real)
    requires |s| > 0 && forall x | x in s :: lo <= x <= hi
    ensures lo <= Mean(s) <= hi
  {
    SumBounds(s, lo, hi);
    var n := |s| as real;
    assert Mean(s) * n == Sum(s);
    if Mean(s) < lo {
      MulMonotone(Mean(s), lo, n);
    }
    if Mean(s) > hi {
      MulMonotone(hi, Mean(s), n);
    }
  }

  /** Every bootstrap mean lies within the range of the group's data, and so
      does the 95% interval taken from them. */
  lemma BootstrapIntervalWithinData(data: seq<real>, draws: seq<seq<nat>>)
    requires |data| > 0 && |draws| > 0
    requires forall i | 0 <= i < |draws| :: IsDraw(|data|, draws[i])
    ensures var means := BootstrapMeans(data, draws);
            Minimum(data) <= Percentile(means, 2.5) <= Percentile(means, 97.5) <= Maximum(data)
  {
    var means := BootstrapMeans(data, draws);
    forall x | x in means ensures Minimum(data) <= x <= Maximum(data) {
      var i :| 0 <= i < |means| && means[i] == x;
      MeanBounds(Resample(data, draws[i]), Minimum(data), Maximum(data));
    }
    PercentileWithinRange(means, 2.5);
    PercentileWithinRange(means, 97.5);
    PercentileMonotone(means, 2.5, 97.5);
  }

  // ---------------------------------------------------------------------
  // Contingency table and odds ratio
  // ---------------------------------------------------------------------

  /** The number of values at or above the threshold (binarised to 1). */
  function CountAtLeast(s: seq<real>, threshold: real): (r: nat)
    ensures r <= |s|
  {
    if |s| == 0 then 0
    else CountAtLeast(s[..|s| - 1], threshold) + (if s[|s| - 1] >= threshold then 1 else 0)
  }

  /** A contingency row: [count of 0s, count of 1s]. */
  function ContingencyRow(s: seq<real>, threshold: real): (row: (nat, nat))
    ensures row.0 + row.1 == |s|
    ensures row.1 == CountAtLeast(s, threshold)
  {
    var ones := CountAtLeast(s, threshold);
    (|s| - ones, ones)
  }

  lemma {:induction false} CountAppend(a: seq<real>, b: seq<real>, th: real)
    ensures CountAtLeast(a + b, th) == CountAtLeast(a, th) + CountAtLeast(b, th)
  {
    if |b| > 0 {
      var n := |b| - 1;
      assert (a + b)[..|a + b| - 1] == a + b[..n];
      CountAppend(a, b[..n], th);
    } else {
      assert a + b == a;
    }
  }

  /** The count does not depend on the order of the values. */
  lemma {:induction false} CountPermutation(s: seq<real>, t: seq<real>, th: real)
    requires multiset(s) == multiset(t)
    ensures CountAtLeast(s, th) == CountAtLeast(t, th)
  {
    if |s| > 0 {
      var n := |s| - 1;
      var x := s[n];
      assert s == s[..n] + [x];
      assert x in multiset(t);
      var j :| 0 <= j < |t| && t[j] == x;
      var rest := t[..j] + t[j + 1..];
      assert t == t[..j] + [x] + t[j + 1..];
      assert multiset(t) == multiset(t[..j]) + multiset{x} + multiset(t[j + 1..]);
      assert multiset(s) == multiset(s[..n]) + multiset{x};
      assert multiset(rest) == multiset(t[..j]) + multiset(t[j + 1..]);
      assert multiset(rest) == multiset(t) - multiset{x};
      assert multiset(s[..n]) == multiset(s) - multiset{x};
      CountPermutation(s[..n], rest, th);
      CountAppend(t[..j] + [x], t[j + 1..], th);
      CountAppend(t[..j], [x], th);
      CountAppend(t[..j], t[j + 1..], th);
      assert CountAtLeast([x], th) == (if x >= th then 1 else 0) by {
        assert [x][..0] == [];
      }
      assert CountAtLeast(s, th) == CountAtLeast(s[..n], th) + (if x >= th then 1 else 0);
    } else {
      assert t == [];
    }
  }

  /** In a sorted sample, everything from position k on is at least a[k]. */
  lemma {:induction false} SortedTailCount(a: seq<real>, th: real, k: nat)
    requires IsSorted(a) && k < |a| && th <= a[k]
    ensures CountAtLeast(a, th) >= |a| - k
  {
    var n := |a| - 1;
    if k < n {
      SortedTailCount(a[..n], th, k);
    }
  }

  /** With the default threshold (the group's median), at least half of the
      group is binarised to 1. */
  lemma AtLeastHalfReachMedian(s: seq<real>)
    requires |s| > 0
    ensures CountAtLeast(s, Median(s)) * 2 >= |s|
  {
    var a := Sort(s);
    var m := |a| / 2;
    SortSorted(s);
    assert Median(s) <= a[m] by {
      if |a| % 2 == 0 {
        assert a[m - 1] <= a[m];
      }
    }
    SortedTailCount(a, Median(s), m);
    SortPermutes(s);
    CountPermutation(s, a, Median(s));
  }

  /** `(a * d) / (b * c)` for a table of exactly two rows, unless
      `b * c` is zero. */
  function OddsRatio(rows: seq<(nat, nat)>): (r: Option<real>)
    ensures r.Some? <==> |rows| == 2 && rows[0].1 * rows[1].0 != 0
    ensures r.Some? ==> r.value >= 0.0
    ensures r.Some? ==> r.value * ((rows[0].1 * rows[1].0) as real) == (rows[0].0 * rows[1].1) as real
  {
    if |rows| != 2 then None
    else
      var (a, b) := rows[0];
      var (c, d) := rows[1];
      if b * c == 0 then None
      else Some(((a * d) as real) / ((b * c) as real))
  }

  // ---------------------------------------------------------------------
  // Pearson correlation input
  // ---------------------------------------------------------------------

  /** Both samples cut to the shorter length. */
  function Truncate(d1: seq<real>, d2: seq<real>): (r: (seq<real>, seq<real>))
    ensures |r.0| == |r.1| == (if |d1| <= |d2| then |d1| else |d2|)
    ensures r.0 <= d1 && r.1 <= d2
  {
    var m := if |d1| <= |d2| then |d1| else |d2|;
    (d1[..m], d2[..m])
  }
}
