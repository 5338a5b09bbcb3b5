# A/B test dashboard: data processor and statistical tester

This project models, in Dafny, the analysis core of the A/B test dashboard:

- `DataProcessor` (utils/data_processor.py). It loads a CSV table,
  validates it (at least 10 rows, no missing values) and reports the
  numeric and categorical columns. It records the group column, the target
  column and the sorted distinct group labels, and hands out each group's
  target values.
- `StatisticalTester` (utils/statistical_tester.py). It keeps one result
  slot per analysis stage:
  - Shapiro-Wilk normality with Q-Q data;
  - Bartlett and Levene variance tests;
  - the parametric or non-parametric choice;
  - the hypothesis test (t-test, Welch, Mann-Whitney U, ANOVA with Tukey,
    Kruskal-Wallis with pairwise Mann-Whitney rows);
  - Cohen's d or eta-squared with their interpretation bands;
  - the bootstrap confidence intervals;
  - the type I/type II error analysis;
  - the Pearson correlation, the chi-square test and the odds ratio;
  - `run_all_tests`, which runs the stages in order.

The modules follow that structure:

| module | file | contents |
|---|---|---|
| `Outcomes` | outcomes.dfy | `Option`, `Result`, `Outcome` (Python's `None` and raised `ValueError`s) |
| `Floats` | floats.dfy | `Float` = finite real, signed infinity or NaN, for divisions that can hit zero |
| `Cells` | cells.dfy | table cells, Python's ordering of labels, truthiness, `sorted(unique(...))` |
| `Samples` | samples.dfy | sum, mean, sample variance, sort, numpy's linear percentile, median, `np.linspace` |
| `Tables` | tables.dfy | columns and dtypes, column lookup, missing count, column kinds, the rows of one group |
| `DataProcessing` | data_processor.dfy | class `DataProcessor` and the functions that specify it |
| `Decisions` | decisions.dfy | the stateless decision rules: verdicts, bands, effect sizes, error matrix, bootstrap flag, contingency table, odds ratio |
| `Testing` | statistical_tester.dfy | class `StatisticalTester`, each stage as a specification function and the methods that compute it |

The tester's methods receive a `Library` value. It carries the scipy and
statsmodels routines the source calls as total functions: shapiro,
bartlett, levene, t-test, Mann-Whitney, ANOVA table, Tukey, Kruskal,
pairwise Mann-Whitney, the two power lookups, sqrt, chi2, pearson and the
normal ppf. Random resampling (`np.random.choice`) is a parameter too:
the caller supplies the index draws.

Each state-changing method is proved against a specification function of
the group data. For example, `PerformBootstrap` ensures that its new
`bootstrap` equals `BootstrapOf(groups, ...)`. The properties the source
promises are lemmas about those functions:
- the bootstrap interval lies within the group's data;
- the interpretation bands are monotone;
- the per-group data partitions the target column;
- the median threshold binarises at least half of each group to 1.

## Model

| member | source | states |
|---|---|---|
| Cells.SortedDistinct | utils/data_processor.py:75 | the labels are strictly increasing in Python's order and hold exactly the values of the column |
| Cells.StrictlyIncreasingUnique | utils/data_processor.py:75 | two strictly increasing lists with the same elements are equal, so the label list is determined by the column's values |
| Cells.StrictlyIncreasingIsDistinct | utils/data_processor.py:75 | a sorted label list has no duplicate label |
| Samples.Variance | utils/statistical_tester.py:275 | `Series.var()` is defined (finite) exactly for two or more values, and is then non-negative |
| Samples.SortSorted | utils/statistical_tester.py:67 | `np.sort` returns its input in ascending order |
| Samples.SortPermutes | utils/statistical_tester.py:67 | `np.sort` returns a permutation of its input |
| Samples.Linspace | utils/statistical_tester.py:68 | `np.linspace(lo, hi, n)` has n points, starts at lo, ends at hi, and increases strictly when lo < hi |
| Samples.PercentileWithinRange | utils/statistical_tester.py:358-359 | a linear percentile lies between the sample's minimum and maximum |
| Samples.PercentileMonotone | utils/statistical_tester.py:358-359 | the 2.5th percentile never exceeds the 97.5th (a lower percentile never exceeds a higher one) |
| Samples.MedianIsFiftiethPercentile | utils/statistical_tester.py:513 | pandas' median, the default threshold, equals numpy's 50th percentile |
| Tables.FindColumn | utils/data_processor.py:67-71 | the lookup finds a column of that name exactly when one exists, and what it finds is in the table |
| Tables.MissingCountZero | utils/data_processor.py:43-44 | `isnull().sum().sum()` is zero exactly when no column has a missing cell |
| Tables.NumericNames | utils/data_processor.py:54 | a name is listed exactly when some column of a numeric dtype has it |
| Tables.CategoricalNames | utils/data_processor.py:55 | a name is listed exactly when some object or category column has it |
| Tables.ColumnKindsDisjoint | utils/data_processor.py:54-55 | no column name is listed as both numeric and categorical |
| Tables.Select | utils/data_processor.py:87 | a group's data has one value per row whose group cell equals the label, each taken from the target column |
| Tables.MatchingRows | utils/data_processor.py:87 | the rows of a group are exactly the rows whose group cell equals the label, each once, in increasing row order |
| Tables.SelectFollowsRows | utils/data_processor.py:87 | the j-th value of a group's data is the target cell of the j-th row with that label, so the boolean mask keeps the table's row order |
| Tables.PartitionIsPermutation | utils/data_processor.py:89-90 | when every row's group is a distinct listed label, the groups' data taken together is a permutation of the target column |
| Tables.OccurringLabelHasRows | utils/data_processor.py:89-90 | a label that occurs in the group column selects at least one row |
| DataProcessing.ValidateTable | utils/data_processor.py:33-47 | the table is accepted exactly when it is loaded, has at least 10 rows and no missing cell; without data the message is "no data", below 10 rows it is "too few rows", and otherwise a rejection reports the total missing count, which is positive |
| DataProcessing.ColumnKindsOf | utils/data_processor.py:49-60 | without a table both lists are empty; otherwise the lists name exactly the numeric and the categorical columns, and never the same name twice |
| DataProcessing.QueryGroupData | utils/data_processor.py:81-90 | `get_group_data` as written: unset data or columns fail; a truthy label gets the rows with that label, in table order; any other call (no label, or a falsy one) gets the dictionary of every recorded label with its rows, fails when the labels were never set, names a missing column, and a single group comes back only for a truthy label |
| DataProcessing.FalsyLabelSelectsAllGroups | utils/data_processor.py:86-90 | with group labels 0 and 1, asking for group 0 returns the dictionary of all groups, while the corrected query returns group 0's values |
| DataProcessing.QueryGroupDataFixed | utils/data_processor.py:81-90 | any given label returns exactly that label's rows in table order (or names the missing column); without a label, the dictionary of every recorded label with its rows; unset data or columns fail |
| DataProcessing.GroupValuesOf | utils/data_processor.py:87 | a group's numeric values number the rows with that label, and are non-empty for every recorded label |
| DataProcessing.GroupDataOf | utils/data_processor.py:89-90 | the group data has the recorded labels, distinct, each with a non-empty sample, and as many values in all as the table has rows |
| DataProcessing.GroupDataIsQueryResult | utils/data_processor.py:89-90 | the group data the tester reads is the dictionary `get_group_data()` returns: same labels in the same order, and each label's values |
| DataProcessing.PartitionCoversTarget | utils/data_processor.py:75 | the per-label data over the sorted distinct labels is a permutation of the target column |
| DataProcessing.EveryLabelHasRows | utils/data_processor.py:75 | every label of the sorted distinct list selects at least one row |
| DataProcessing.DataProcessor.constructor | utils/data_processor.py:10-14 | data, group column, target column and groups all start unset |
| DataProcessing.DataProcessor.LoadData | utils/data_processor.py:16-31 | a parse failure changes nothing; a parsed table is stored even when empty, and the call fails exactly when it is empty |
| DataProcessing.DataProcessor.Validate | utils/data_processor.py:33-47 | accepts exactly a loaded table with at least 10 rows and no missing cell, with the same three messages as `ValidateTable`, the last carrying the total missing count |
| DataProcessing.DataProcessor.ColumnTypes | utils/data_processor.py:49-60 | two empty lists without data; never a name in both lists |
| DataProcessing.DataProcessor.SetGroupAndTarget | utils/data_processor.py:62-79 | the three presence checks fail without touching any field; past them both names are stored, the labels are stored unless sorting fails, and the dtype check comes last; success leaves strictly increasing labels and, with a complete target column, the ready state |
| DataProcessing.DataProcessor.GetGroupData | utils/data_processor.py:81-90 | on the processor's own fields, the same answer as `QueryGroupData`: unset data or columns fail, a truthy label gets its rows, otherwise the dictionary of all recorded labels with their rows |
| DataProcessing.DataProcessor.Groups | utils/data_processor.py:89-90 | the snapshot has the recorded labels, distinct, with non-empty samples totalling the table's rows |
| Decisions.AllNormal | utils/statistical_tester.py:122 | `all(...)` is true exactly when every verdict is `True` (a `None` verdict counts as false) |
| Decisions.SelectTestType | utils/statistical_tester.py:115-133 | parametric exactly when every group's verdict is normal; any untested group forces non-parametric |
| Decisions.Step | utils/statistical_tester.py:284-291 | an `if x < c1 elif ...` ladder puts x on the step whose cuts bracket it, and NaN on the last step |
| Decisions.StepMonotone | utils/statistical_tester.py:284-291 | a larger value never lands on a lower step |
| Decisions.CohenBand | utils/statistical_tester.py:284-291 | the band is very small, small, medium or large exactly as \|d\| is below 0.2, below 0.5, below 0.8 or at least 0.8; NaN reads as large |
| Decisions.CohenBandMonotone | utils/statistical_tester.py:284-291 | a larger \|d\| never gets a smaller band |
| Decisions.EtaBand | utils/statistical_tester.py:321-328 | the band follows the cuts 0.01, 0.06 and 0.14 in both directions; NaN reads as large |
| Decisions.CorrelationStrength | utils/statistical_tester.py:583-595 | the strength follows \|r\| against 0.1, 0.3, 0.5 and 0.7 in both directions |
| Decisions.PooledVariance | utils/statistical_tester.py:274-278 | the pooled variance is defined exactly when both groups have two or more values, and is non-negative |
| Decisions.CohenD | utils/statistical_tester.py:273-281 | d is NaN when either group has fewer than two values |
| Decisions.CohenDSign | utils/statistical_tester.py:281 | with a positive pooled variance, d is finite and has the sign of mean1 - mean2 |
| Decisions.EtaSquared | utils/statistical_tester.py:316-318 | with non-negative sums of squares and a positive total, eta-squared lies in [0, 1]; a zero total gives no finite value |
| Decisions.OneMinus | utils/statistical_tester.py:431 | `1 - x` is finite exactly when x is, sums with x to 1, and is NaN exactly when x is |
| Decisions.EffectF | utils/statistical_tester.py:454 | eta-squared 1 gives an infinite f; NaN stays NaN |
| Decisions.EffectFDefined | utils/statistical_tester.py:454 | for eta-squared in [0, 1), f is finite, non-negative and squares to eta / (1 - eta) |
| Decisions.ErrorMatrixOf | utils/statistical_tester.py:439-444 | the true-difference column is power and 1 - power, the no-difference column is alpha and 1 - alpha |
| Decisions.ExcludesZero | utils/statistical_tester.py:389 | for an ordered interval, the difference is significant exactly when the interval does not contain 0 |
| Decisions.Resample | utils/statistical_tester.py:354 | a resample has the data's length and holds only values of the data |
| Decisions.BootstrapMeans | utils/statistical_tester.py:353-355 | one resample mean per draw |
| Decisions.BootstrapDiffs | utils/statistical_tester.py:375-378 | one difference of resample means per pair of draws |
| Decisions.MeanBounds | utils/statistical_tester.py:355 | a mean lies between any bounds of the values averaged |
| Decisions.BootstrapIntervalWithinData | utils/statistical_tester.py:353-359 | every group's 95% bootstrap interval is ordered and lies within the group's minimum and maximum |
| Decisions.CountAtLeast | utils/statistical_tester.py:520 | the number of values binarised to 1 is at most the group's size |
| Decisions.ContingencyRow | utils/statistical_tester.py:525-528 | a row's two counts add up to the group's size, the second counting values at or above the threshold |
| Decisions.CountPermutation | utils/statistical_tester.py:520 | the count does not depend on the order of the values |
| Decisions.AtLeastHalfReachMedian | utils/statistical_tester.py:511-520 | with the group's median as threshold, at least half of the group is binarised to 1 |
| Decisions.OddsRatio | utils/statistical_tester.py:534-539 | a ratio exists exactly for two rows with b * c non-zero; it is non-negative and times b * c gives a * d |
| Decisions.Truncate | utils/statistical_tester.py:488-491 | both samples are prefixes of the originals cut to the shorter length |
| Testing.RepeatLabels | utils/statistical_tester.py:148-152 | the long-format label column is as long as the value column |
| Testing.NormalityOf | utils/statistical_tester.py:54-80 | below three values every part is null; otherwise the Shapiro-Wilk result is stored, the verdict is true exactly when its p exceeds alpha, the Q-Q sample is the data sorted, and the i-th theoretical quantile is the normal ppf of the i-th point of `linspace(0.01, 0.99, n)` |
| Testing.NormalityTable | utils/statistical_tester.py:48-80 | one entry per label |
| Testing.SmallGroupForcesNonParametric | utils/statistical_tester.py:55-60 | a group of fewer than three values makes the test type non-parametric |
| Testing.HomogeneityOf | utils/statistical_tester.py:95-111 | each verdict holds exactly when its test's p-value exceeds alpha |
| Testing.PairResults | utils/statistical_tester.py:233-242 | one pair per table row, its p-value the row's fourth column, significant exactly when below alpha |
| Testing.HypothesisOf | utils/statistical_tester.py:135-255 | two groups under the parametric type: the t-test result on the two samples, pooled exactly when Levene accepts equal variances; two groups otherwise: the Mann-Whitney result; other counts: the ANOVA F and p on the long-format frame with Tukey's rows, or the Kruskal-Wallis result with the Dunn rows from the pairwise table; significance exactly when p < alpha, for the Dunn rows too |
| Testing.EffectOf | utils/statistical_tester.py:257-337 | two groups: Cohen's d of the first group against the second, banded by the d ladder and NaN when a group has fewer than two values; otherwise eta-squared from the ANOVA sums of squares on the long-format frame, banded by the eta ladder |
| Testing.DiffBootOf | utils/statistical_tester.py:369-390 | the difference entry's interval is ordered, its mean difference is mean1 - mean2, and it is significant exactly when its interval excludes 0 |
| Testing.KeyedByKeys | utils/statistical_tester.py:348-367 | the dictionary filled label by label has exactly the labels written as keys |
| Testing.KeyedByLookup | utils/statistical_tester.py:348-367 | with distinct labels, each label's entry is its own group's |
| Testing.BootstrapKeys | utils/statistical_tester.py:339-392 | the bootstrap keys are the labels, plus "difference" exactly when there are two groups |
| Testing.BootstrapGroupEntry | utils/statistical_tester.py:348-367 | each group's entry is its own bootstrap, with an ordered interval inside the group's data range |
| Testing.BootstrapDifference | utils/statistical_tester.py:369-390 | with two groups the "difference" entry compares the first label with the second, holds mean1 - mean2, and is significant exactly when its ordered interval excludes 0 |
| Testing.ErrorAnalysisOf | utils/statistical_tester.py:394-477 | type I error is alpha; type II error and power sum to 1; one sample size per label; two groups use \|d\|, scaled by 0.95 unless the type is parametric, in the t-test power; other counts use f and the total sample size in the ANOVA power |
| Testing.ErrorAnalysisAsWritten | utils/statistical_tester.py:447-475 | as written, the analysis exists exactly for two groups, where it is the corrected one; every other group count fails with the ANOVA power call's `TypeError` |
| Testing.AnovaPowerCallFails | utils/statistical_tester.py:460 | with three groups the as-written analysis fails, while the corrected one gives the ANOVA power of f over three groups and all their values |
| Testing.ContingencyTable | utils/statistical_tester.py:510-528 | one row per label, each the group binarised against its own threshold (the given one, or its median) |
| Testing.ContingencyRows | utils/statistical_tester.py:510-528 | every row counts all of its group's values, and with median thresholds at least half of each group is in the second column |
| Testing.ChiSquareOf | utils/statistical_tester.py:503-549 | the table is the contingency table; chi2, p, dof and the expected counts are the chi-square routine's on that table; significance is exactly p < alpha; the odds ratio is the table's, present exactly for two groups with b * c non-zero |
| Testing.NormalityEntries | utils/statistical_tester.py:48-80 | the loop builds exactly the normality table |
| Testing.BootstrapEntries | utils/statistical_tester.py:339-392 | the group loop and the difference step build exactly the specified bootstrap dictionary |
| Testing.ResampleMeans | utils/statistical_tester.py:350-355 | the loop collects exactly the resample means, in drawing order |
| Testing.ResampleDiffs | utils/statistical_tester.py:373-378 | the loop collects exactly the differences of resample means, in drawing order |
| Testing.LongFormat | utils/statistical_tester.py:148-152 | the loop builds the long-format frame: all values in label order, each with its own group's label |
| Testing.HypothesisTest | utils/statistical_tester.py:144-253 | the test run on the long-format frame is the specified one for the group count, test type and variance result |
| Testing.SummaryOf | utils/statistical_tester.py:551-581 | each entry is its stage's result: the normality table, both variance tests, the type chosen from those verdicts, the hypothesis test for that type and variance result, the effect size, the bootstrap dictionary, and the error analysis with that type and effect size |
| Testing.DunnPairs | utils/statistical_tester.py:233-242 | the loop builds exactly the specified pair rows |
| Testing.Contingency | utils/statistical_tester.py:523-528 | the loop builds exactly the contingency table |
| Testing.StatisticalTester.constructor | utils/statistical_tester.py:21-34 | every result slot starts empty, no test type, alpha 0.05 |
| Testing.StatisticalTester.SetAlpha | utils/statistical_tester.py:36-41 | a level is taken exactly when strictly between 0 and 1; otherwise the call fails and alpha is unchanged |
| Testing.StatisticalTester.TestNormality | utils/statistical_tester.py:43-82 | fails without groups, leaving the results alone; otherwise the normality results are the table for the current groups and alpha |
| Testing.StatisticalTester.TestHomogeneity | utils/statistical_tester.py:84-113 | fails without groups, leaving the result alone; otherwise the variance results are Bartlett's and Levene's tests on the groups' samples with the strict p > alpha verdicts |
| Testing.StatisticalTester.DetermineTestType | utils/statistical_tester.py:115-133 | both assumption tests are rerun exactly when either result is missing; the type is chosen from the normality verdicts alone |
| Testing.StatisticalTester.RunHypothesisTest | utils/statistical_tester.py:135-255 | fails without groups, changing nothing; a chosen test type is reused, otherwise it is determined first; the stored result is the specified test for that type and the stored variance result |
| Testing.StatisticalTester.CalculateEffectSize | utils/statistical_tester.py:257-337 | fails without groups, leaving the result alone; otherwise the stored effect size is the specified one for the current groups |
| Testing.StatisticalTester.PerformBootstrap | utils/statistical_tester.py:339-392 | fails without groups, leaving the result alone; otherwise the stored dictionary is the specified bootstrap for the given draws |
| Testing.StatisticalTester.AnalyzeErrors | utils/statistical_tester.py:394-477 | fails without groups, changing nothing; otherwise a missing effect size is computed and stored first; the call succeeds exactly for two groups, storing the analysis for that effect size, alpha and the current test type; with any other count the ANOVA power call fails and the stored analysis is left alone |
| Testing.StatisticalTester.PearsonCorrelation | utils/statistical_tester.py:479-501 | fails exactly unless there are two groups; the correlation is on the samples cut to equal length, significant exactly when p < alpha, with its strength band |
| Testing.StatisticalTester.ChiSquareTest | utils/statistical_tester.py:503-549 | fails without groups; otherwise returns the specified chi-square result |
| Testing.StatisticalTester.RunAllTests | utils/statistical_tester.py:551-581 | fails without groups, changing nothing; otherwise every stage's result is stored in its slot; with two groups the error analysis is stored too and the summary of all stages is returned; with any other count the error analysis fails and the call returns that failure |

## Left out

- CSV parsing and file handling are not modelled. `LoadData` receives what `pd.read_csv` produced, or `None` when it raised. The table's shape guarantees are stated in `Tables.WellFormed`.
- The scipy and statsmodels routines are opaque total functions in a `Library` value. Their exceptions and warnings are not modelled, and their results are taken as finite numbers.
- Floating point is modelled with exact reals. `Float` adds infinities and NaN only where the analysis code divides by a quantity that can be zero: Cohen's d, eta-squared, Cohen's f and the power values. Rounding is not modelled.
- `np.random.choice` is modelled by caller-supplied index draws. The draws are given in label order, one list per group, plus the pairs for the difference entry.
- Testing.StatisticalTester.PerformBootstrap: requires at least one resample, because `np.percentile` of an empty list raises in the source.
- Python's `sorted` on a group column that mixes numbers and strings, or holds a missing value, is reported as `Unorderable`. The model does not reproduce the order numpy gives to NaN among numbers.
- Boolean group labels are not modelled. A `Cell` holds a number, a string or nothing.
- A ragged table is reported as `Unconfigured` by the group query. `pd.read_csv` never produces one.
- The Tukey and pairwise Mann-Whitney tables are passed through as rows. Their string formatting (the `comparison` and `groups` text fields) is represented by the label pair.
- The tester's methods require `processor.Ready()`, the state in which the application builds the tester: a validated table and a successful `set_group_and_target`. Before that state the source raises on the empty group list, which the methods model as `NoGroups`.
- Testing.StatisticalTester.RunAllTests: computes the stages through `Testing.SummaryOf` and stores them with one `StoreStages` call, rather than calling each stage method in turn. Its ensures states the same results the stage methods would leave, including the stored effect size when the error analysis fails.
- The tester reads the processor's groups through the corrected group query. The source's per-group calls at utils/statistical_tester.py:52 and :92 go through `get_group_data(group)` as written, so a falsy label would return the dictionary there (see Findings).
- A group literally labelled "difference" is overwritten by the difference entry when there are two groups. `Testing.BootstrapDifference` states this behaviour; the source's intent there is unclear.
- `get_group_summary`, `prepare_data_guide`, `get_null_alternative_hypothesis`, the report generator, the visualiser and the Streamlit pages are outside the modelled core.

## Findings

| source | as written | input that shows it | evidently intended | confidence | as-written member | corrected member |
|---|---|---|---|---|---|---|
| utils/data_processor.py:86 | `if group_name:` tests truthiness, so a label that is falsy (0, or the empty string) falls through to the all-groups branch | numeric group column [0, 1], `get_group_data(0)` | return the rows of group 0 (`if group_name is not None:`) | not executed | DataProcessing.QueryGroupData (shown by DataProcessing.FalsyLabelSelectsAllGroups) | DataProcessing.QueryGroupDataFixed |
| utils/statistical_tester.py:460 | `power_analysis.power(effect_size, num_groups, total_n, alpha=type_1_error)` passes `total_n` in the position of `alpha` and then `alpha` by keyword, so Python raises `TypeError` | three groups, `analyze_errors()` (or `run_all_tests()`) | `power(effect_size, nobs=total_n, alpha=type_1_error, k_groups=num_groups)` | not executed | Testing.ErrorAnalysisAsWritten (shown by Testing.AnovaPowerCallFails) | Testing.ErrorAnalysisOf |
