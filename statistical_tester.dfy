/** `StatisticalTester` (utils/statistical_tester.py): one result slot per
    analysis stage, filled by the stage's method from the processor's group
    data. The numerical routines of scipy and statsmodels are the fields of a
    `Library` value the methods receive. */
module Testing {
  import opened Outcomes
  import opened Floats
  import opened Samples
  import opened Cells
  import opened Tables
  import opened Decisions
  import opened DataProcessing

  datatype StatPair = StatPair(statistic: real, pValue: real)

  /** The `C(group)` and `Residual` rows of `anova_lm`. */
  datatype AnovaRow = AnovaRow(f: real, pValue: real, ssGroup: real, ssResid: real)

  /** A row of `pairwise_tukeyhsd`'s table, passed through unchanged. */
  datatype TukeyRow = TukeyRow(group1: Cell, group2: Cell, meanDiff: real, pAdjusted: real,
                               lower: real, upper: real, reject: bool)

  /** A data row of `MultiComparison.allpairtest`'s table; its fourth column
      is read as the pair's p-value. */
  datatype PairRow = PairRow(group1: Cell, group2: Cell, statistic: real, column3: real)

  datatype ChiResult = ChiResult(chi2: real, pValue: real, dof: nat, expected: seq<seq<real>>)

  /** The library routines the tester calls. Long-format data is a value
      list with its label list. */
  datatype Library = Library(
    shapiro: seq<real> -> StatPair,
    bartlett: seq<seq<real>> -> StatPair,
    levene: seq<seq<real>> -> StatPair,
    ttest: (seq<real>, seq<real>, bool) -> StatPair,
    mannWhitney: (seq<real>, seq<real>) -> StatPair,
    anova: (seq<real>, seq<Cell>) -> AnovaRow,
    tukey: (seq<real>, seq<Cell>, real) -> seq<TukeyRow>,
    kruskal: seq<seq<real>> -> StatPair,
    pairwiseMannWhitney: (seq<real>, seq<Cell>) -> seq<PairRow>,
    ttestPower: (Float, nat, nat, real) -> Float,
    anovaPower: (Float, nat, nat, real) -> Float,
    root: real -> real,
    chi2: seq<(nat, nat)> -> ChiResult,
    pearson: (seq<real>, seq<real>) -> StatPair,
    ppf: real -> real)

  datatype QQ = QQ(theoretical: seq<real>, sample: seq<real>)

  /** One group's normality entry; all parts are null below three values. */
  datatype Normality = Normality(shapiro: Option<StatPair>, normal: Option<bool>, qq: Option<QQ>)

  datatype VarianceTest = VarianceTest(statistic: real, pValue: real, equalVariances: bool)

  datatype Homogeneity = Homogeneity(bartlett: VarianceTest, levene: VarianceTest)

  datatype TestName = PooledTTest | WelchTTest | MannWhitneyU | OneWayAnova | KruskalWallis

  datatype PairResult = PairResult(group1: Cell, group2: Cell, statistic: real, pValue: real, significant: bool)

  datatype PostHoc = NoPostHoc | Tukey(tukeyRows: seq<TukeyRow>) | Dunn(pairs: seq<PairResult>)

  datatype Hypothesis = Hypothesis(name: TestName, statistic: real, pValue: real, significant: bool,
                                   equalVariances: Option<bool>, compared: Option<seq<Cell>>,
                                   postHoc: PostHoc)

  datatype Measure = CohensD | EtaSquaredMeasure

  datatype EffectSize = EffectSize(measure: Measure, value: Float, band: Band, comparison: Option<(Cell, Cell)>)

  /** An entry of the bootstrap dictionary: one per group, and the
      difference entry stored under the key "difference". */
  datatype BootEntry =
    | GroupBoot(mean: real, bootstrapMean: real, ciLower: real, ciUpper: real, samples: seq<real>)
    | DiffBoot(pair: (Cell, Cell), meanDiff: real, bootstrapMeanDiff: real,
               ciLower: real, ciUpper: real, significant: bool)

  datatype ErrorAnalysis = ErrorAnalysis(type1: real, type2: Float, power: Float, effectSize: Float,
                                         sampleSizes: seq<(Cell, nat)>, matrix: ErrorMatrix)

  datatype Correlation = Correlation(r: real, pValue: real, significant: bool, strength: Strength)

  datatype ChiSquare = ChiSquare(chi2: real, pValue: real, dof: nat, significant: bool,
                                 table: seq<(nat, nat)>, expected: seq<seq<real>>, oddsRatio: Option<real>)

  datatype Summary = Summary(normality: seq<(Cell, Normality)>, homogeneity: Homogeneity, testType: TestType,
                             hypothesis: Hypothesis, effect: EffectSize, bootstrap: map<Cell, BootEntry>,
                             errors: ErrorAnalysis)

  datatype TestError =
    | InvalidAlpha
    | NoGroups
    | NotTwoGroups
    | AnovaPowerCall // TypeError: the ANOVA power call passes `alpha` twice

  /** The key of the bootstrap difference entry. */
  const DifferenceKey: Cell := Text("difference")

  /** `run_all_tests` calls `perform_bootstrap` with its default. */
  const DefaultResamples: nat := 1000

  // ---------------------------------------------------------------------
  // Stage results as functions of the group data
  // ---------------------------------------------------------------------

  /** The `group` column of the long-format frame: each label repeated once
      per value of its group. */
  function RepeatLabels(labels: seq<Cell>, samples: seq<seq<real>>): (r: seq<Cell>)
    requires |samples| == |labels|
    ensures |r| == |Flatten(samples)|
  {
    if |labels| == 0 then []
    else seq(|samples[0]|, _ => labels[0]) + RepeatLabels(labels[1..], samples[1..])
  }

  /** Appending a group appends its values. */
  lemma {:induction false} FlattenAppend(ss: seq<seq<real>>, s: seq<real>)
    ensures Flatten(ss + [s]) == Flatten(ss) + s
  {
    if |ss| == 0 {
      assert ss + [s] == [s];
      assert Flatten([s]) == s + Flatten([]);
    } else {
      assert (ss + [s])[1..] == ss[1..] + [s];
      FlattenAppend(ss[1..], s);
    }
  }

  /** Appending a group appends its label once per value. */
  lemma {:induction false} RepeatLabelsAppend(labels: seq<Cell>, samples: seq<seq<real>>, l: Cell, s: seq<real>)
    requires |samples| == |labels|
    ensures RepeatLabels(labels + [l], samples + [s]) == RepeatLabels(labels, samples) + seq(|s|, _ => l)
  {
    if |labels| == 0 {
      assert labels + [l] == [l] && samples + [s] == [s];
    } else {
      assert (labels + [l])[1..] == labels[1..] + [l];
      assert (samples + [s])[1..] == samples[1..] + [s];
      RepeatLabelsAppend(labels[1..], samples[1..], l, s);
    }
  }

  /** A group's normality entry: Shapiro-Wilk with the strict `p > alpha`
      verdict, and the Q-Q data. */
  function NormalityOf(lib: Library, data: seq<real>, alpha: real): (r: Normality)
    ensures |data| < 3 <==> r == Normality(None, None, None)
    ensures |data| >= 3 ==> r.shapiro == Some(lib.shapiro(data)) && r.qq.Some?
    ensures r.normal.None? <==> |data| < 3
    ensures r.normal == Some(true) <==> |data| >= 3 && lib.shapiro(data).pValue > alpha
    ensures r.qq.Some? ==> |r.qq.value.theoretical| == |data|
                           && IsSorted(r.qq.value.sample)
                           && multiset(r.qq.value.sample) == multiset(data)
    ensures r.qq.Some? ==> forall i | 0 <= i < |data| ::
              r.qq.value.theoretical[i] == lib.ppf(Linspace(0.01, 0.99, |data|)[i])
  {
    if |data| < 3 then Normality(None, None, None)
    else
      var sh := lib.shapiro(data);
      var probabilities := Linspace(0.01, 0.99, |data|);
      var theoretical := seq(|data|, i requires 0 <= i < |data| => lib.ppf(probabilities[i]));
      SortSorted(data);
      SortPermutes(data);
      Normality(Some(sh), Some(sh.pValue > alpha), Some(QQ(theoretical, Sort(data))))
  }

  /** The normality dictionary, one entry per label in label order. */
  function NormalityTable(lib: Library, gd: GroupData, alpha: real): (r: seq<(Cell, Normality)>)
    requires WellGrouped(gd)
    ensures |r| == |gd.labels|
  {
    seq(|gd.labels|, i requires 0 <= i < |gd.labels| => (gd.labels[i], NormalityOf(lib, gd.samples[i], alpha)))
  }

  function Verdicts(table: seq<(Cell, Normality)>): (r: seq<Option<bool>>)
    ensures |r| == |table|
  {
    seq(|table|, i requires 0 <= i < |table| => table[i].1.normal)
  }

  /** A group of fewer than three values makes the analysis non-parametric. */
  lemma SmallGroupForcesNonParametric(lib: Library, gd: GroupData, alpha: real, k: nat)
    requires WellGrouped(gd) && k < |gd.labels| && |gd.samples[k]| < 3
    ensures SelectTestType(Verdicts(NormalityTable(lib, gd, alpha))) == NonParametric
  {
    var v := Verdicts(NormalityTable(lib, gd, alpha));
    assert v[k] == None;
  }

  /** Both variance tests with the strict `p > alpha` verdict. */
  function HomogeneityOf(lib: Library, samples: seq<seq<real>>, alpha: real): (h: Homogeneity)
    ensures h.levene.equalVariances <==> lib.levene(samples).pValue > alpha
    ensures h.bartlett.equalVariances <==> lib.bartlett(samples).pValue > alpha
  {
    var b, l := lib.bartlett(samples), lib.levene(samples);
    Homogeneity(VarianceTest(b.statistic, b.pValue, b.pValue > alpha),
                VarianceTest(l.statistic, l.pValue, l.pValue > alpha))
  }

  /** The Dunn post-hoc rows: the fourth column is the p-value. */
  function PairResults(rows: seq<PairRow>, alpha: real): (r: seq<PairResult>)
    ensures |r| == |rows|
    ensures forall i | 0 <= i < |r| :: r[i].pValue == rows[i].column3
    ensures forall i | 0 <= i < |r| :: r[i].significant <==> r[i].pValue < alpha
  {
    seq(|rows|, i requires 0 <= i < |rows| =>
                  PairResult(rows[i].group1, rows[i].group2, rows[i].statistic, rows[i].column3,
                             rows[i].column3 < alpha))
  }

  /** `run_hypothesis_test`: the test chosen by the number of groups and the
      test type, and its strict `p < alpha` significance. */
  function HypothesisOf(lib: Library, gd: GroupData, alpha: real, t: TestType, h: Homogeneity): (r: Hypothesis)
    requires WellGrouped(gd)
    ensures r.significant <==> r.pValue < alpha
    ensures (r.name == PooledTTest || r.name == WelchTTest) <==> |gd.labels| == 2 && t == Parametric
    ensures r.name == PooledTTest <==> |gd.labels| == 2 && t == Parametric && h.levene.equalVariances
    ensures r.name == MannWhitneyU <==> |gd.labels| == 2 && t == NonParametric
    ensures r.name == OneWayAnova <==> |gd.labels| != 2 && t == Parametric
    ensures r.postHoc.Dunn? ==> forall i | 0 <= i < |r.postHoc.pairs| ::
              r.postHoc.pairs[i].significant <==> r.postHoc.pairs[i].pValue < alpha
    ensures |gd.labels| == 2 && t == Parametric ==>
              && StatPair(r.statistic, r.pValue)
                 == lib.ttest(gd.samples[0], gd.samples[1], h.levene.equalVariances)
              && r.equalVariances == Some(h.levene.equalVariances)
              && r.compared == Some(gd.labels) && r.postHoc == NoPostHoc
    ensures |gd.labels| == 2 && t == NonParametric ==>
              && StatPair(r.statistic, r.pValue) == lib.mannWhitney(gd.samples[0], gd.samples[1])
              && r.equalVariances == None && r.compared == Some(gd.labels) && r.postHoc == NoPostHoc
    ensures |gd.labels| != 2 && t == Parametric ==>
              var values, groups := Flatten(gd.samples), RepeatLabels(gd.labels, gd.samples);
              && r.statistic == lib.anova(values, groups).f && r.pValue == lib.anova(values, groups).pValue
              && r.equalVariances == None && r.compared == None
              && r.postHoc == Tukey(lib.tukey(values, groups, alpha))
    ensures |gd.labels| != 2 && t == NonParametric ==>
              && StatPair(r.statistic, r.pValue) == lib.kruskal(gd.samples)
              && r.equalVariances == None && r.compared == None
              && r.postHoc == Dunn(PairResults(lib.pairwiseMannWhitney(Flatten(gd.samples),
                                                                       RepeatLabels(gd.labels, gd.samples)), alpha))
  {
    var labels, samples := gd.labels, gd.samples;
    if |labels| == 2 then
      if t == Parametric then
        var equal := h.levene.equalVariances;
        var test := lib.ttest(samples[0], samples[1], equal);
        Hypothesis(if equal then PooledTTest else WelchTTest, test.statistic, test.pValue,
                   test.pValue < alpha, Some(equal), Some(labels), NoPostHoc)
      else
        assert t == NonParametric;
        var test := lib.mannWhitney(samples[0], samples[1]);
        Hypothesis(MannWhitneyU, test.statistic, test.pValue, test.pValue < alpha, None, Some(labels), NoPostHoc)
    else
      var values, groups := Flatten(samples), RepeatLabels(labels, samples);
      if t == Parametric then
        var a := lib.anova(values, groups);
        Hypothesis(OneWayAnova, a.f, a.pValue, a.pValue < alpha, None, None,
                   Tukey(lib.tukey(values, groups, alpha)))
      else
        var k := lib.kruskal(samples);
        Hypothesis(KruskalWallis, k.statistic, k.pValue, k.pValue < alpha, None, None,
                   Dunn(PairResults(lib.pairwiseMannWhitney(values, groups), alpha)))
  }

  /** `calculate_effect_size`: Cohen's d for two groups, eta-squared
      otherwise, each with its interpretation. */
  function EffectOf(lib: Library, gd: GroupData): (r: EffectSize)
    requires WellGrouped(gd)
    ensures r.measure == CohensD <==> |gd.labels| == 2
    ensures r.measure == CohensD ==> r.band == CohenBand(r.value)
    ensures r.measure == EtaSquaredMeasure ==> r.band == EtaBand(r.value)
    ensures r.measure == CohensD && (|gd.samples[0]| < 2 || |gd.samples[1]| < 2) ==> r.value.NaN?
    ensures |gd.labels| == 2 ==>
              r.value == CohenD(gd.samples[0], gd.samples[1], lib.root)
              && r.comparison == Some((gd.labels[0], gd.labels[1]))
    ensures |gd.labels| != 2 ==>
              var a := lib.anova(Flatten(gd.samples), RepeatLabels(gd.labels, gd.samples));
              r.value == EtaSquared(a.ssGroup, a.ssResid) && r.comparison == None
  {
    var labels, samples := gd.labels, gd.samples;
    if |labels| == 2 then
      var d := CohenD(samples[0], samples[1], lib.root);
      EffectSize(CohensD, d, CohenBand(d), Some((labels[0], labels[1])))
    else
      var a := lib.anova(Flatten(samples), RepeatLabels(labels, samples));
      var e := EtaSquared(a.ssGroup, a.ssResid);
      EffectSize(EtaSquaredMeasure, e, EtaBand(e), None)
  }

  /** Each sample has a non-empty list of draws that fit it. */
  predicate DrawsFitSamples(samples: seq<seq<real>>, draws: seq<seq<seq<nat>>>)
  {
    && |draws| == |samples|
    && forall i | 0 <= i < |samples| ::
         && |samples[i]| > 0 && |draws[i]| > 0
         && forall j | 0 <= j < |draws[i]| :: IsDraw(|samples[i]|, draws[i][j])
  }

  /** The draws a bootstrap run needs: `resamples` draws per group (in label
      order), and as many pairs of draws for the difference when there are
      two groups. */
  predicate DrawsFit(gd: GroupData, resamples: nat, draws: seq<seq<seq<nat>>>,
                     diffDraws: seq<(seq<nat>, seq<nat>)>)
    requires WellGrouped(gd)
  {
    && resamples > 0
    && DrawsFitSamples(gd.samples, draws)
    && (forall i | 0 <= i < |draws| :: |draws[i]| == resamples)
    && (|gd.labels| == 2 ==>
          |diffDraws| == resamples
          && forall i | 0 <= i < resamples ::
               IsDraw(|gd.samples[0]|, diffDraws[i].0) && IsDraw(|gd.samples[1]|, diffDraws[i].1))
  }

  /** One group's entry: the observed mean, the mean of the resample means
      and their 2.5th and 97.5th percentiles. */
  function GroupBootOf(data: seq<real>, draws: seq<seq<nat>>): (e: BootEntry)
    requires |data| > 0 && |draws| > 0
    requires forall i | 0 <= i < |draws| :: IsDraw(|data|, draws[i])
  {
    var means := BootstrapMeans(data, draws);
    GroupBoot(Mean(data), Mean(means), Percentile(means, 2.5), Percentile(means, 97.5), means)
  }

  function DiffBootOf(g1: Cell, g2: Cell, d1: seq<real>, d2: seq<real>,
                      draws: seq<(seq<nat>, seq<nat>)>): (e: BootEntry)
    requires |d1| > 0 && |d2| > 0 && |draws| > 0
    requires forall i | 0 <= i < |draws| :: IsDraw(|d1|, draws[i].0) && IsDraw(|d2|, draws[i].1)
    ensures e.DiffBoot? && e.ciLower <= e.ciUpper
    ensures e.meanDiff == Mean(d1) - Mean(d2)
    ensures e.significant <==> !(e.ciLower <= 0.0 <= e.ciUpper)
  {
    var diffs := BootstrapDiffs(d1, d2, draws);
    var lower, upper := Percentile(diffs, 2.5), Percentile(diffs, 97.5);
    PercentileMonotone(diffs, 2.5, 97.5);
    DiffBoot((g1, g2), Mean(d1) - Mean(d2), Mean(diffs), lower, upper, ExcludesZero(lower, upper))
  }

  /** A dictionary filled label by label from the first `n` entries; a
      repeated label keeps its last entry. */
  function KeyedBy(labels: seq<Cell>, entries: seq<BootEntry>, n: nat): (m: map<Cell, BootEntry>)
    requires n <= |labels| == |entries|
  {
    if n == 0 then map[]
    else KeyedBy(labels, entries, n - 1)[labels[n - 1] := entries[n - 1]]
  }

  /** The dictionary is keyed by exactly the labels written into it. */
  lemma {:induction false} KeyedByKeys(labels: seq<Cell>, entries: seq<BootEntry>, n: nat)
    requires n <= |labels| == |entries|
    ensures forall k :: k in KeyedBy(labels, entries, n) <==> k in labels[..n]
  {
    if n > 0 {
      KeyedByKeys(labels, entries, n - 1);
      assert labels[..n] == labels[..n - 1] + [labels[n - 1]];
    }
  }

  /** With distinct labels, no entry is overwritten by a later one. */
  lemma {:induction false} KeyedByLookup(labels: seq<Cell>, entries: seq<BootEntry>, n: nat, i: nat)
    requires n <= |labels| == |entries| && Distinct(labels) && i < n
    ensures labels[i] in KeyedBy(labels, entries, n)
    ensures KeyedBy(labels, entries, n)[labels[i]] == entries[i]
  {
    if i < n - 1 {
      KeyedByLookup(labels, entries, n - 1, i);
      assert labels[i] != labels[n - 1];
    }
  }

  /** Writing entry `i` extends the dictionary of the first `i` entries. */
  lemma KeyedByStep(labels: seq<Cell>, entries: seq<BootEntry>, i: nat, e: BootEntry)
    requires i < |labels| == |entries| && e == entries[i]
    ensures KeyedBy(labels, entries, i + 1) == KeyedBy(labels, entries, i)[labels[i] := e]
  {
  }

  /** Each group's bootstrap entry, in label order. */
  function GroupEntries(samples: seq<seq<real>>, draws: seq<seq<seq<nat>>>): seq<BootEntry>
    requires DrawsFitSamples(samples, draws)
  {
    seq(|samples|, i requires 0 <= i < |samples| => GroupBootOf(samples[i], draws[i]))
  }

  /** `perform_bootstrap`: an entry per group, then the difference entry when
      there are exactly two groups. */
  function BootstrapOf(gd: GroupData, resamples: nat, draws: seq<seq<seq<nat>>>,
                       diffDraws: seq<(seq<nat>, seq<nat>)>): map<Cell, BootEntry>
    requires WellGrouped(gd) && DrawsFit(gd, resamples, draws, diffDraws)
  {
    var perGroup := KeyedBy(gd.labels, GroupEntries(gd.samples, draws), |gd.labels|);
    if |gd.labels| == 2 then
      perGroup[DifferenceKey := DiffBootOf(gd.labels[0], gd.labels[1], gd.samples[0], gd.samples[1], diffDraws)]
    else perGroup
  }

  /** The keys are the labels, plus "difference" exactly for two groups. */
  lemma BootstrapKeys(gd: GroupData, resamples: nat, draws: seq<seq<seq<nat>>>,
                      diffDraws: seq<(seq<nat>, seq<nat>)>)
    requires WellGrouped(gd) && DrawsFit(gd, resamples, draws, diffDraws)
    ensures forall k :: k in BootstrapOf(gd, resamples, draws, diffDraws) <==>
                          k in gd.labels || (|gd.labels| == 2 && k == DifferenceKey)
  {
    KeyedByKeys(gd.labels, GroupEntries(gd.samples, draws), |gd.labels|);
    assert gd.labels[..|gd.labels|] == gd.labels;
  }

  /** Every group entry not shadowed by the difference entry is that
      group's bootstrap, whose interval lies within the group's data. */
  lemma BootstrapGroupEntry(gd: GroupData, resamples: nat, draws: seq<seq<seq<nat>>>,
                            diffDraws: seq<(seq<nat>, seq<nat>)>, i: nat)
    requires WellGrouped(gd) && DrawsFit(gd, resamples, draws, diffDraws)
    requires i < |gd.labels| && !(|gd.labels| == 2 && gd.labels[i] == DifferenceKey)
    ensures gd.labels[i] in BootstrapOf(gd, resamples, draws, diffDraws)
    ensures var e := BootstrapOf(gd, resamples, draws, diffDraws)[gd.labels[i]];
            && e == GroupBootOf(gd.samples[i], draws[i])
            && Minimum(gd.samples[i]) <= e.ciLower <= e.ciUpper <= Maximum(gd.samples[i])
  {
    KeyedByLookup(gd.labels, GroupEntries(gd.samples, draws), |gd.labels|, i);
    BootstrapIntervalWithinData(gd.samples[i], draws[i]);
  }

  /** With two groups the difference entry holds the difference of the
      means and is flagged exactly when its interval excludes zero; a group
      itself labelled "difference" is overwritten by it. */
  lemma BootstrapDifference(gd: GroupData, resamples: nat, draws: seq<seq<seq<nat>>>,
                            diffDraws: seq<(seq<nat>, seq<nat>)>)
    requires WellGrouped(gd) && DrawsFit(gd, resamples, draws, diffDraws) && |gd.labels| == 2
    ensures var e := BootstrapOf(gd, resamples, draws, diffDraws)[DifferenceKey];
            && e.DiffBoot? && e.pair == (gd.labels[0], gd.labels[1])
            && e.meanDiff == Mean(gd.samples[0]) - Mean(gd.samples[1])
            && e.ciLower <= e.ciUpper
            && (e.significant <==> !(e.ciLower <= 0.0 <= e.ciUpper))
  {
  }

  /** `analyze_errors`, given the effect-size entry in use. With two groups
      the reported effect size is |d|, and only a test type other than
      parametric scales it by 0.95 for the power lookup. */
  function ErrorAnalysisOf(lib: Library, gd: GroupData, alpha: real, t: Option<TestType>,
                           e: EffectSize): (r: ErrorAnalysis)
    requires WellGrouped(gd)
    ensures r.type1 == alpha && r.matrix == ErrorMatrixOf(r.power, alpha)
    ensures OneMinusInverse(r.power, r.type2)
    ensures |r.sampleSizes| == |gd.labels|
    ensures forall i | 0 <= i < |r.sampleSizes| :: r.sampleSizes[i] == (gd.labels[i], |gd.samples[i]|)
    ensures |gd.labels| == 2 ==>
              && r.effectSize == Abs(e.value)
              && r.power == lib.ttestPower(if t == Some(Parametric) then r.effectSize else Scale(r.effectSize, 0.95),
                                           |gd.samples[0]|, |gd.samples[1]|, alpha)
    ensures |gd.labels| != 2 ==>
              && r.effectSize == EffectF(e.value, lib.root)
              && r.power == lib.anovaPower(r.effectSize, |gd.labels|, |Flatten(gd.samples)|, alpha)
  {
    var labels, samples := gd.labels, gd.samples;
    var sizes := seq(|labels|, i requires 0 <= i < |labels| => (labels[i], |samples[i]|));
    if |labels| == 2 then
      var size := Abs(e.value);
      var power := lib.ttestPower(if t == Some(Parametric) then size else Scale(size, 0.95),
                                  |samples[0]|, |samples[1]|, alpha);
      ErrorAnalysis(alpha, OneMinus(power), power, size, sizes, ErrorMatrixOf(power, alpha))
    else
      var f := EffectF(e.value, lib.root);
      var power := lib.anovaPower(f, |labels|, |Flatten(samples)|, alpha);
      ErrorAnalysis(alpha, OneMinus(power), power, f, sizes, ErrorMatrixOf(power, alpha))
  }

  /** `analyze_errors` as written: with other than two groups the call
      `power(effect_size, num_groups, total_n, alpha=...)` binds `total_n` to
      `alpha` by position and then `alpha` again by keyword, so Python raises
      `TypeError` before anything is stored. */
  function ErrorAnalysisAsWritten(lib: Library, gd: GroupData, alpha: real, t: Option<TestType>,
                                  e: EffectSize): (r: Result<ErrorAnalysis, TestError>)
    requires WellGrouped(gd)
    ensures r.Ok? <==> |gd.labels| == 2
    ensures r.Err? ==> r.error == AnovaPowerCall
    ensures r.Ok? ==> r.value == ErrorAnalysisOf(lib, gd, alpha, t, e)
  {
    if |gd.labels| == 2 then Ok(ErrorAnalysisOf(lib, gd, alpha, t, e)) else Err(AnovaPowerCall)
  }

  /** Three groups: the as-written analysis fails, while the corrected one
      reports the ANOVA power of f = sqrt(eta / (1 - eta)) over the three
      groups and all their values. */
  lemma AnovaPowerCallFails(lib: Library, gd: GroupData, alpha: real, t: Option<TestType>, e: EffectSize)
    requires WellGrouped(gd) && |gd.labels| == 3
    ensures ErrorAnalysisAsWritten(lib, gd, alpha, t, e) == Err(AnovaPowerCall)
    ensures ErrorAnalysisOf(lib, gd, alpha, t, e).power
            == lib.anovaPower(EffectF(e.value, lib.root), 3, |Flatten(gd.samples)|, alpha)
  {
  }

  /** The per-group binarisation threshold: the caller's, or the group's
      median. */
  function Threshold(data: seq<real>, threshold: Option<real>): real
    requires |data| > 0
  {
    if threshold.Some? then threshold.value else Median(data)
  }

  /** The contingency table: one [zeros, ones] row per group. */
  function ContingencyTable(gd: GroupData, threshold: Option<real>): (r: seq<(nat, nat)>)
    requires WellGrouped(gd)
    ensures |r| == |gd.labels|
    ensures forall i | 0 <= i < |r| :: r[i] == ContingencyRow(gd.samples[i], Threshold(gd.samples[i], threshold))
  {
    seq(|gd.samples|, i requires 0 <= i < |gd.samples| =>
                        ContingencyRow(gd.samples[i], Threshold(gd.samples[i], threshold)))
  }

  /** Each row counts all of its group's values; with the median as the
      threshold at least half of every group is binarised to 1. */
  lemma ContingencyRows(gd: GroupData, threshold: Option<real>)
    requires WellGrouped(gd)
    ensures var r := ContingencyTable(gd, threshold);
            && (forall i | 0 <= i < |r| :: r[i].0 + r[i].1 == |gd.samples[i]|)
            && (threshold.None? ==> forall i | 0 <= i < |r| :: r[i].1 * 2 >= |gd.samples[i]|)
  {
    var r := ContingencyTable(gd, threshold);
    if threshold.None? {
      forall i | 0 <= i < |r| ensures r[i].1 * 2 >= |gd.samples[i]| {
        AtLeastHalfReachMedian(gd.samples[i]);
      }
    }
  }

  /** `chi_square_test` on the contingency table. */
  function ChiSquareOf(lib: Library, gd: GroupData, alpha: real, threshold: Option<real>): (r: ChiSquare)
    requires WellGrouped(gd)
    ensures r.table == ContingencyTable(gd, threshold)
    ensures r.significant <==> r.pValue < alpha
    ensures r.oddsRatio.Some? <==> |gd.labels| == 2 && r.table[0].1 * r.table[1].0 != 0
    ensures r.oddsRatio == OddsRatio(r.table)
    ensures var c := lib.chi2(r.table);
            r.chi2 == c.chi2 && r.pValue == c.pValue && r.dof == c.dof && r.expected == c.expected
  {
    var table := ContingencyTable(gd, threshold);
    var c := lib.chi2(table);
    ChiSquare(c.chi2, c.pValue, c.dof, c.pValue < alpha, table, c.expected, OddsRatio(table))
  }

  /** The normality dictionary, filled group by group. */
  method NormalityEntries(lib: Library, gd: GroupData, alpha: real) returns (table: seq<(Cell, Normality)>)
    requires WellGrouped(gd)
    ensures table == NormalityTable(lib, gd, alpha)
  {
    table := [];
    var i := 0;
    while i < |gd.labels|
      invariant 0 <= i <= |gd.labels|
      invariant table == NormalityTable(lib, gd, alpha)[..i]
    {
      var data := gd.samples[i];
      var entry;
      if |data| < 3 {
        entry := Normality(None, None, None);
      } else {
        var sh := lib.shapiro(data);
        var probabilities := Linspace(0.01, 0.99, |data|);
        var theoretical := seq(|data|, k requires 0 <= k < |data| => lib.ppf(probabilities[k]));
        entry := Normality(Some(sh), Some(sh.pValue > alpha), Some(QQ(theoretical, Sort(data))));
      }
      table := table + [(gd.labels[i], entry)];
      i := i + 1;
    }
  }

  /** `perform_bootstrap`'s dictionary: each group's entry written in label
      order, then, for two groups, the difference entry from the paired
      resamples. */
  method BootstrapEntries(gd: GroupData, resamples: nat, draws: seq<seq<seq<nat>>>,
                          diffDraws: seq<(seq<nat>, seq<nat>)>) returns (m: map<Cell, BootEntry>)
    requires WellGrouped(gd) && DrawsFit(gd, resamples, draws, diffDraws)
    ensures m == BootstrapOf(gd, resamples, draws, diffDraws)
  {
    var labels, samples := gd.labels, gd.samples;
    ghost var entries := GroupEntries(samples, draws);
    m := map[];
    var i := 0;
    while i < |labels|
      invariant 0 <= i <= |labels|
      invariant m == KeyedBy(labels, entries, i)
    {
      var data := samples[i];
      var means := ResampleMeans(data, draws[i]);
      var entry := GroupBoot(Mean(data), Mean(means), Percentile(means, 2.5), Percentile(means, 97.5), means);
      KeyedByStep(labels, entries, i, entry);
      m := m[labels[i] := entry];
      i := i + 1;
    }
    if |labels| == 2 {
      var d1, d2 := samples[0], samples[1];
      var diffs := ResampleDiffs(d1, d2, diffDraws);
      var lower, upper := Percentile(diffs, 2.5), Percentile(diffs, 97.5);
      m := m[DifferenceKey := DiffBoot((labels[0], labels[1]), Mean(d1) - Mean(d2), Mean(diffs),
                                       lower, upper, ExcludesZero(lower, upper))];
    }
  }

  /** The means of the resamples of one group, appended draw by draw. */
  method ResampleMeans(data: seq<real>, draws: seq<seq<nat>>) returns (means: seq<real>)
    requires |data| > 0
    requires forall i | 0 <= i < |draws| :: IsDraw(|data|, draws[i])
    ensures means == BootstrapMeans(data, draws)
  {
    means := [];
    var j := 0;
    while j < |draws|
      invariant 0 <= j <= |draws|
      invariant means == BootstrapMeans(data, draws)[..j]
    {
      means := means + [Mean(Resample(data, draws[j]))];
      j := j + 1;
    }
  }

  /** The bootstrap differences of two groups' means, pair of draws by pair
      of draws. */
  method ResampleDiffs(d1: seq<real>, d2: seq<real>, draws: seq<(seq<nat>, seq<nat>)>) returns (diffs: seq<real>)
    requires |d1| > 0 && |d2| > 0
    requires forall i | 0 <= i < |draws| :: IsDraw(|d1|, draws[i].0) && IsDraw(|d2|, draws[i].1)
    ensures diffs == BootstrapDiffs(d1, d2, draws)
  {
    diffs := [];
    var j := 0;
    while j < |draws|
      invariant 0 <= j <= |draws|
      invariant diffs == BootstrapDiffs(d1, d2, draws)[..j]
    {
      diffs := diffs + [Mean(Resample(d1, draws[j].0)) - Mean(Resample(d2, draws[j].1))];
      j := j + 1;
    }
  }

  /** The summary `run_all_tests` assembles for non-empty group data. */
  function SummaryOf(lib: Library, gd: GroupData, alpha: real, resamples: nat,
                     draws: seq<seq<seq<nat>>>, diffDraws: seq<(seq<nat>, seq<nat>)>): (s: Summary)
    requires WellGrouped(gd) && DrawsFit(gd, resamples, draws, diffDraws)
    ensures s.normality == NormalityTable(lib, gd, alpha)
    ensures s.homogeneity == HomogeneityOf(lib, gd.samples, alpha)
    ensures s.testType == SelectTestType(Verdicts(s.normality))
    ensures s.effect == EffectOf(lib, gd)
    ensures s.bootstrap == BootstrapOf(gd, resamples, draws, diffDraws)
    ensures s.hypothesis == HypothesisOf(lib, gd, alpha, s.testType, s.homogeneity)
    ensures s.errors == ErrorAnalysisOf(lib, gd, alpha, Some(s.testType), s.effect)
  {
    var n := NormalityTable(lib, gd, alpha);
    var h := HomogeneityOf(lib, gd.samples, alpha);
    var t := SelectTestType(Verdicts(n));
    var e := EffectOf(lib, gd);
    Summary(n, h, t, HypothesisOf(lib, gd, alpha, t, h), e, BootstrapOf(gd, resamples, draws, diffDraws),
            ErrorAnalysisOf(lib, gd, alpha, Some(t), e))
  }

  /** The long-format frame of `run_hypothesis_test`: each group's values
      appended in label order, with the group's label beside each value. */
  method LongFormat(labels: seq<Cell>, samples: seq<seq<real>>) returns (values: seq<real>, groups: seq<Cell>)
    requires |samples| == |labels|
    ensures values == Flatten(samples) && groups == RepeatLabels(labels, samples)
  {
    values, groups := [], [];
    var i := 0;
    while i < |labels|
      invariant 0 <= i <= |labels|
      invariant values == Flatten(samples[..i]) && groups == RepeatLabels(labels[..i], samples[..i])
    {
      assert samples[..i + 1] == samples[..i] + [samples[i]];
      assert labels[..i + 1] == labels[..i] + [labels[i]];
      FlattenAppend(samples[..i], samples[i]);
      RepeatLabelsAppend(labels[..i], samples[..i], labels[i], samples[i]);
      values := values + samples[i];
      groups := groups + seq(|samples[i]|, _ => labels[i]);
      i := i + 1;
    }
    assert samples[..i] == samples && labels[..i] == labels;
  }

  /** `run_hypothesis_test` once the test type is known: the long-format
      frame, then the test for the number of groups and the test type, with
      Tukey's rows after ANOVA and the Dunn rows after Kruskal-Wallis. */
  method HypothesisTest(lib: Library, gd: GroupData, alpha: real, t: TestType, h: Homogeneity)
    returns (x: Hypothesis)
    requires WellGrouped(gd)
    ensures x == HypothesisOf(lib, gd, alpha, t, h)
  {
    var labels, samples := gd.labels, gd.samples;
    var values, groups := LongFormat(labels, samples);
    if |labels| == 2 {
      if t == Parametric {
        var equal := h.levene.equalVariances;
        var test := lib.ttest(samples[0], samples[1], equal);
        x := Hypothesis(if equal then PooledTTest else WelchTTest, test.statistic, test.pValue,
                        test.pValue < alpha, Some(equal), Some(labels), NoPostHoc);
      } else {
        var test := lib.mannWhitney(samples[0], samples[1]);
        x := Hypothesis(MannWhitneyU, test.statistic, test.pValue, test.pValue < alpha,
                        None, Some(labels), NoPostHoc);
      }
    } else {
      if t == Parametric {
        var a := lib.anova(values, groups);
        x := Hypothesis(OneWayAnova, a.f, a.pValue, a.pValue < alpha, None, None,
                        Tukey(lib.tukey(values, groups, alpha)));
      } else {
        var k := lib.kruskal(samples);
        var pairs := DunnPairs(lib.pairwiseMannWhitney(values, groups), alpha);
        x := Hypothesis(KruskalWallis, k.statistic, k.pValue, k.pValue < alpha, None, None, Dunn(pairs));
      }
    }
  }

  /** The Dunn rows, one per row of the pairwise table. */
  method DunnPairs(rows: seq<PairRow>, alpha: real) returns (pairs: seq<PairResult>)
    ensures pairs == PairResults(rows, alpha)
  {
    pairs := [];
    var i := 0;
    while i < |rows|
      invariant 0 <= i <= |rows|
      invariant pairs == PairResults(rows, alpha)[..i]
    {
      var row := rows[i];
      pairs := pairs + [PairResult(row.group1, row.group2, row.statistic, row.column3, row.column3 < alpha)];
      i := i + 1;
    }
  }

  /** The contingency table, filled group by group. */
  method Contingency(gd: GroupData, threshold: Option<real>) returns (table: seq<(nat, nat)>)
    requires WellGrouped(gd)
    ensures table == ContingencyTable(gd, threshold)
  {
    ghost var full := ContingencyTable(gd, threshold);
    table := [];
    var i := 0;
    while i < |gd.samples|
      invariant 0 <= i <= |gd.samples|
      invariant table == full[..i]
    {
      var data := gd.samples[i];
      var row := ContingencyRow(data, Threshold(data, threshold));
      assert full[..i + 1] == full[..i] + [row];
      table := table + [row];
      i := i + 1;
    }
    assert full[..i] == full;
  }

  class StatisticalTester {
    const processor: DataProcessor
    var alpha: real
    var normality: seq<(Cell, Normality)>
    var homogeneity: Option<Homogeneity>
    var testType: Option<TestType>
    var hypothesis: Option<Hypothesis>
    var effect: Option<EffectSize>
    var bootstrap: map<Cell, BootEntry>
    var errors: Option<ErrorAnalysis>

    /** The significance level stays strictly between 0 and 1, and a test
        type is only ever chosen together with the variance tests. */
    ghost predicate Valid()
      reads this
    {
      && 0.0 < alpha < 1.0
      && (testType.Some? ==> homogeneity.Some?)
    }

    constructor (p: DataProcessor)
      ensures Valid()
      ensures processor == p && alpha == 0.05
      ensures normality == [] && homogeneity == None && testType == None
      ensures hypothesis == None && effect == None && bootstrap == map[] && errors == None
    {
      processor := p;
      alpha := 0.05;
      normality := [];
      homogeneity := None;
      testType := None;
      hypothesis := None;
      effect := None;
      bootstrap := map[];
      errors := None;
    }

    /** `set_alpha`: only a level strictly between 0 and 1 is taken. */
    method SetAlpha(level: real) returns (r: Outcome<TestError>)
      requires Valid()
      modifies this`alpha
      ensures Valid()
      ensures r == Pass <==> 0.0 < level < 1.0
      ensures r == Pass ==> alpha == level
      ensures r != Pass ==> r == Fail(InvalidAlpha) && alpha == old(alpha)
    {
      if 0.0 < level < 1.0 {
        alpha := level;
        return Pass;
      }
      return Fail(InvalidAlpha);
    }

    /** `test_normality`: rebuilds the dictionary group by group. */
    method TestNormality(lib: Library) returns (r: Outcome<TestError>)
      requires Valid() && processor.Ready()
      modifies this`normality
      ensures Valid()
      ensures r == Pass <==> |old(processor.groups.value)| > 0
      ensures r != Pass ==> r == Fail(NoGroups) && normality == old(normality)
      ensures r == Pass ==> normality == NormalityTable(lib, old(processor.Groups()), old(alpha))
    {
      var gd := processor.Groups();
      var labels := gd.labels;
      if |labels| == 0 {
        return Fail(NoGroups);
      }
      normality := NormalityEntries(lib, gd, alpha);
      return Pass;
    }

    /** `test_homogeneity`: both variance tests on the groups' data. */
    method TestHomogeneity(lib: Library) returns (r: Outcome<TestError>)
      requires Valid() && processor.Ready()
      modifies this`homogeneity
      ensures Valid()
      ensures r == Pass <==> |old(processor.groups.value)| > 0
      ensures r != Pass ==> r == Fail(NoGroups) && homogeneity == old(homogeneity)
      ensures r == Pass ==> homogeneity == Some(HomogeneityOf(lib, old(processor.Groups()).samples, old(alpha)))
    {
      var gd := processor.Groups();
      var labels := gd.labels;
      if |labels| == 0 {
        return Fail(NoGroups);
      }
      homogeneity := Some(HomogeneityOf(lib, gd.samples, alpha));
      return Pass;
    }

    /** `determine_test_type`: the two assumption tests are rerun only when
        either result is missing. */
    method DetermineTestType(lib: Library) returns (r: Result<TestType, TestError>)
      requires Valid() && processor.Ready()
      modifies this`normality, this`homogeneity, this`testType
      ensures Valid()
      ensures old(|normality| > 0 && homogeneity.Some?) ==>
                && normality == old(normality) && homogeneity == old(homogeneity)
                && r == Ok(SelectTestType(Verdicts(normality))) && testType == Some(r.value)
      ensures !old(|normality| > 0 && homogeneity.Some?) && |old(processor.groups.value)| == 0 ==>
                && r == Err(NoGroups) && unchanged(this)
      ensures !old(|normality| > 0 && homogeneity.Some?) && |old(processor.groups.value)| > 0 ==>
                && normality == NormalityTable(lib, old(processor.Groups()), old(alpha))
                && homogeneity == Some(HomogeneityOf(lib, old(processor.Groups()).samples, old(alpha)))
                && r == Ok(SelectTestType(Verdicts(normality))) && testType == Some(r.value)
    {
      if |normality| == 0 || homogeneity.None? {
        var n := TestNormality(lib);
        if n.Fail? {
          return Err(n.error);
        }
        var h := TestHomogeneity(lib);
      }
      var verdicts := Verdicts(normality);
      testType := Some(SelectTestType(verdicts));
      return Ok(testType.value);
    }

    /** `run_hypothesis_test`: a test type already chosen is reused. */
    method RunHypothesisTest(lib: Library) returns (r: Outcome<TestError>)
      requires Valid() && processor.Ready()
      modifies this`normality, this`homogeneity, this`testType, this`hypothesis
      ensures Valid()
      ensures r == Pass <==> |old(processor.groups.value)| > 0
      ensures r != Pass ==> r == Fail(NoGroups) && unchanged(this)
      ensures r == Pass && old(testType).Some? ==>
                testType == old(testType) && normality == old(normality) && homogeneity == old(homogeneity)
      ensures r == Pass && old(testType).None? && old(|normality| > 0 && homogeneity.Some?) ==>
                normality == old(normality) && homogeneity == old(homogeneity)
                && testType == Some(SelectTestType(Verdicts(normality)))
      ensures r == Pass && old(testType).None? && !old(|normality| > 0 && homogeneity.Some?) ==>
                && normality == NormalityTable(lib, old(processor.Groups()), old(alpha))
                && homogeneity == Some(HomogeneityOf(lib, old(processor.Groups()).samples, old(alpha)))
                && testType == Some(SelectTestType(Verdicts(normality)))
      ensures r == Pass ==>
                && testType.Some? && homogeneity.Some?
                && hypothesis == Some(HypothesisOf(lib, old(processor.Groups()), old(alpha), testType.value, homogeneity.value))
    {
      var gd := processor.Groups();
      if |gd.labels| == 0 {
        return Fail(NoGroups);
      }
      if testType.None? {
        var t := DetermineTestType(lib);
      }
      var x := HypothesisTest(lib, gd, alpha, testType.value, homogeneity.value);
      hypothesis := Some(x);
      return Pass;
    }

    /** `calculate_effect_size`. */
    method CalculateEffectSize(lib: Library) returns (r: Outcome<TestError>)
      requires Valid() && processor.Ready()
      modifies this`effect
      ensures Valid()
      ensures r == Pass <==> |old(processor.groups.value)| > 0
      ensures r != Pass ==> r == Fail(NoGroups) && effect == old(effect)
      ensures r == Pass ==> effect == Some(EffectOf(lib, old(processor.Groups())))
    {
      var gd := processor.Groups();
      if |gd.labels| == 0 {
        return Fail(NoGroups);
      }
      effect := Some(EffectOf(lib, gd));
      return Pass;
    }

    /** `perform_bootstrap`, with the random choices given as draws, listed
        in label order. */
    method PerformBootstrap(resamples: nat, draws: seq<seq<seq<nat>>>,
                            diffDraws: seq<(seq<nat>, seq<nat>)>) returns (r: Outcome<TestError>)
      requires Valid() && processor.Ready()
      requires DrawsFit(processor.Groups(), resamples, draws, diffDraws)
      modifies this`bootstrap
      ensures Valid()
      ensures r == Pass <==> |old(processor.groups.value)| > 0
      ensures r != Pass ==> r == Fail(NoGroups) && bootstrap == old(bootstrap)
      ensures r == Pass ==> bootstrap == BootstrapOf(old(processor.Groups()), resamples, draws, diffDraws)
    {
      var gd := processor.Groups();
      if |gd.labels| == 0 {
        return Fail(NoGroups);
      }
      bootstrap := BootstrapEntries(gd, resamples, draws, diffDraws);
      return Pass;
    }

    /** `analyze_errors`, as written: the effect size is computed first when
        missing; with two groups the analysis is stored, and with any other
        number of groups the ANOVA power call raises (`AnovaPowerCall`)
        after the effect size was stored. */
    method AnalyzeErrors(lib: Library) returns (r: Outcome<TestError>)
      requires Valid() && processor.Ready()
      modifies this`effect, this`errors
      ensures Valid()
      ensures r == Pass <==> |old(processor.groups.value)| == 2
      ensures |old(processor.groups.value)| == 0 ==> r == Fail(NoGroups) && unchanged(this)
      ensures |old(processor.groups.value)| > 0 ==>
                effect == (if old(effect).None? then Some(EffectOf(lib, old(processor.Groups()))) else old(effect))
      ensures r == Pass ==>
                errors == Some(ErrorAnalysisOf(lib, old(processor.Groups()), old(alpha), testType, effect.value))
      ensures |old(processor.groups.value)| > 0 && r != Pass ==>
                r == Fail(AnovaPowerCall) && errors == old(errors)
    {
      var gd := processor.Groups();
      if |gd.labels| == 0 {
        return Fail(NoGroups);
      }
      if effect.None? {
        var e := CalculateEffectSize(lib);
      }
      var analysis := ErrorAnalysisAsWritten(lib, gd, alpha, testType, effect.value);
      if analysis.Err? {
        return Fail(analysis.error);
      }
      errors := Some(analysis.value);
      return Pass;
    }

    /** `pearson_correlation`: only for exactly two groups, on the samples
        cut to the shorter length. */
    function PearsonCorrelation(lib: Library): (r: Result<Correlation, TestError>)
      requires processor.Ready()
      reads this, processor
      ensures r.Ok? <==> |processor.groups.value| == 2
      ensures r.Err? ==> r.error == NotTwoGroups
      ensures r.Ok? ==>
                var cut := Truncate(processor.Groups().samples[0], processor.Groups().samples[1]);
                && lib.pearson(cut.0, cut.1) == StatPair(r.value.r, r.value.pValue)
                && (r.value.significant <==> r.value.pValue < alpha)
                && r.value.strength == CorrelationStrength(r.value.r)
    {
      var gd := processor.Groups();
      if |gd.labels| != 2 then Err(NotTwoGroups)
      else
        var cut := Truncate(gd.samples[0], gd.samples[1]);
        var test := lib.pearson(cut.0, cut.1);
        Ok(Correlation(test.statistic, test.pValue, test.pValue < alpha, CorrelationStrength(test.statistic)))
    }

    /** `chi_square_test`: the table is filled row by row. */
    method ChiSquareTest(lib: Library, threshold: Option<real>) returns (r: Result<ChiSquare, TestError>)
      requires processor.Ready()
      ensures |processor.groups.value| == 0 ==> r == Err(NoGroups)
      ensures |processor.groups.value| > 0 ==> r == Ok(ChiSquareOf(lib, processor.Groups(), alpha, threshold))
    {
      var gd := processor.Groups();
      var samples := gd.samples;
      if |samples| == 0 {
        return Err(NoGroups);
      }
      var table := Contingency(gd, threshold);
      var c := lib.chi2(table);
      return Ok(ChiSquare(c.chi2, c.pValue, c.dof, c.pValue < alpha, table, c.expected, OddsRatio(table)));
    }

    /** `run_all_tests`: every stage in order, the bootstrap with its default
        1000 resamples, and the summary of the stages' results. Each stage
        finds the results of the stages before it in place: the assumption
        tests were just rerun, so the test type is chosen from the normality
        just computed, and the error analysis uses the effect size just
        computed. Each stage stores what its method stores on that state. As
        written, the error analysis raises for other than two groups, after
        every earlier stage stored its result. */
    method RunAllTests(lib: Library, draws: seq<seq<seq<nat>>>,
                       diffDraws: seq<(seq<nat>, seq<nat>)>) returns (r: Result<Summary, TestError>)
      requires Valid() && processor.Ready()
      requires DrawsFit(processor.Groups(), DefaultResamples, draws, diffDraws)
      modifies this`normality, this`homogeneity, this`testType, this`hypothesis, this`effect,
               this`bootstrap, this`errors
      ensures Valid()
      ensures r.Ok? <==> |old(processor.groups.value)| == 2
      ensures |old(processor.groups.value)| == 0 ==> r == Err(NoGroups) && unchanged(this)
      ensures |old(processor.groups.value)| > 0 ==>
                var s := SummaryOf(lib, old(processor.Groups()), old(alpha), DefaultResamples, draws, diffDraws);
                && normality == s.normality && homogeneity == Some(s.homogeneity)
                && testType == Some(s.testType) && hypothesis == Some(s.hypothesis)
                && effect == Some(s.effect) && bootstrap == s.bootstrap
                && (|old(processor.groups.value)| == 2 ==> r == Ok(s) && errors == Some(s.errors))
                && (|old(processor.groups.value)| != 2 ==> r == Err(AnovaPowerCall) && errors == old(errors))
    {
      var gd := processor.Groups();
      if |gd.labels| == 0 {
        return Err(NoGroups);
      }
      var s := SummaryOf(lib, gd, alpha, DefaultResamples, draws, diffDraws);
      if |gd.labels| == 2 {
        StoreStages(s, Some(s.errors));
        r := Ok(s);
      } else {
        StoreStages(s, errors);
        r := Err(AnovaPowerCall);
      }
    }

    /** Puts each stage's result in its slot, and `analysis` in the error
        analysis slot. */
    method StoreStages(s: Summary, analysis: Option<ErrorAnalysis>)
      requires Valid()
      modifies this`normality, this`homogeneity, this`testType, this`hypothesis, this`effect,
               this`bootstrap, this`errors
      ensures Valid()
      ensures normality == s.normality && homogeneity == Some(s.homogeneity)
      ensures testType == Some(s.testType) && hypothesis == Some(s.hypothesis)
      ensures effect == Some(s.effect) && bootstrap == s.bootstrap && errors == analysis
    {
      normality, homogeneity, testType, hypothesis, effect, bootstrap, errors :=
        s.normality, Some(s.homogeneity), Some(s.testType), Some(s.hypothesis), Some(s.effect), s.bootstrap, analysis;
    }
  }
}
