# pulsar_metrics metric engine in Dafny

This project models the metric-evaluation engine of pulsar_metrics, a Python package that
watches a deployed model. It covers these parts:

- **The threshold policy.** `compare_to_threshold` turns a metric value and a threshold into a status.
- **The column check.** `validate_dataframe` checks that a data frame has the columns the engine needs.
- **The name registries** of metric kinds and metric names.
- **The validated result record** (`MetricResults`) and the custom-metric wrapper.
- **The metric variants.** These are the drift value metrics, the drift significance tests, and the performance metrics with their seeded bootstrap confidence interval.
- **`FeatureSummary`**, which appends summary-statistic records for one feature.
- **The `Analyzer`.** It registers metrics in order and then runs them, stopping at the first exception.

The statistics themselves (scipy, sklearn, numpy and the random generator) are not modelled.
Each is a routine of a library record (`DriftLibrary`, `ScoreLibrary`, `StatsLibrary`) that is
passed in as a parameter and may fail. A data frame (`Frame`) has a row count, one label per
row, and an ordered set of distinct named columns; each column has a numeric flag and one cell
per row. `data[key]` gives a `Selection`: a Series for a column name, a sub-frame for a list of
names, either keeping the row labels. Python values are `PyValue`s. An exception is an `Error`,
carried by `Result` or `Outcome`.

The modules follow the package:

- `Utils` (utils.py);
- `Enums` (metrics/enums.py);
- `MetricsBase` (metrics/base.py);
- `Statistics` (metrics/statistics.py);
- `Drift` (metrics/drift.py);
- `Performance` (metrics/performance.py);
- `Analyzers` (analyzers/base.py);
- the shared modules `Common`, `PyValues`, `Frames` and `LegacyResults`.

Objects whose fields the package updates in place are classes:

- `CustomMetric`, `FeatureSummary`, `DriftMetric`, `DriftTestMetric`, `PerformanceMetric`: each holds `_result`;
- `Analyzer`: holds `_metrics_list` and `_results`.

Each method is proved against a function that specifies it. The loops of
`FeatureSummary.evaluate`, `_bootstrap`, `add_performance_metrics`, `add_drift_metrics` and
`run` keep their `while` loops and invariants.

drift.py and performance.py are written against an earlier interface of metrics/base.py.

- They pass the data to the base initialiser.
- They build their records with the keywords `type`, `value`, `status` and `feature`.

The model therefore gives each variant its own record shape, `LegacyResult`, and models each
variant's own logic under that earlier interface. The Findings table below records what the
code does as written.

Some behaviour of the code is easy to misread, and the model keeps it as written:

- `Analyzer.run` (pulsar_metrics/analyzers/base.py:142-160) evaluates every registered metric in list order. It does not filter by model identity and does not run `FeatureSummary`.
- drift.py's own value registry (pulsar_metrics/metrics/drift.py:22-24) has no `psi`, although enums.py lists it (pulsar_metrics/metrics/enums.py:45).
- `FeatureSummary.evaluate` (pulsar_metrics/metrics/statistics.py:63-115) returns nothing. It builds its `top` record (lines 98-104) but never appends it.
- The drift and performance status (pulsar_metrics/metrics/drift.py:79-82, pulsar_metrics/metrics/performance.py:103-106) is `value < threshold` for a numeric threshold and None otherwise. It ignores `upper_bound` and interval thresholds.
- The two validator messages of `MetricResults` (pulsar_metrics/metrics/base.py:39 and 51) are f-strings around plain literals, so their braces are not interpolated.

## Model

| member | source | states |
|---|---|---|
| Utils.ValidateDataframe | pulsar_metrics/utils.py:12-55 | True exactly when y_name, pred_name, "date" and "model_id" are all columns, extra columns ignored; otherwise the package error with the missing-key message |
| Utils.FirstMissingColumnDecides | pulsar_metrics/utils.py:33-52 | columns are checked in the order y_name, pred_name, date, model_id; the first missing one decides the error, whose value is the column name for y/pred and None for date/model_id |
| Utils.CompareToThreshold | pulsar_metrics/utils.py:58-93 | the status is None exactly when the threshold is None; there is a boolean status exactly when the value is a number and the threshold is a number or a list of two distinct numbers; the only package error is the vector-threshold one |
| Utils.NoThresholdNoStatus | pulsar_metrics/utils.py:85-86 | a None threshold gives status None and no error, whatever the value and the flag |
| Utils.SingleThreshold | pulsar_metrics/utils.py:81-82 | for any number value (bool, int or float) and number threshold: value < threshold when upper_bound is truthy, otherwise threshold < value; a value equal to the threshold never passes |
| Utils.IntervalThresholdIsOpenInterval | pulsar_metrics/utils.py:83-84 | for any numeric value, a list made of two distinct numbers a < b, in any order and multiplicity, gives a < value < b, strictly, and upper_bound plays no part |
| Utils.AcceptedIntervalHasTwoValues | pulsar_metrics/utils.py:83 | conversely, every list accepted as an interval has ordered bounds min < max and every element equals one of them |
| Utils.SingleValueListRejected | pulsar_metrics/utils.py:83-91 | a numeric list whose elements are all equal (or empty) is rejected with the vector-threshold error |
| Utils.ThreeValuesListRejected | pulsar_metrics/utils.py:83-91 | a numeric list in which three distinct numbers occur is rejected with the vector-threshold error |
| Utils.OtherShapesRejected | pulsar_metrics/utils.py:87-91 | a string, a tuple or a hashable list with a non-number is rejected with the vector-threshold error |
| Utils.SingleThresholdExample | tests/test_utils.py:52-55 | value 3 against threshold 2 gives False |
| Utils.IntervalThresholdExamples | tests/test_utils.py:58-61 | value 3 against [1, 4] gives True, and so does [1, 4, 4], counted through the set |
| Utils.InvalidThresholdExamples | tests/test_utils.py:64-82 | [1, 1], [1, 4, 6] and "a" are rejected with the vector-threshold error |
| Enums.DriftFunc | pulsar_metrics/metrics/enums.py:43-46 | a routine exists exactly for kl, psi and wasserstein |
| Enums.TestFunc | pulsar_metrics/metrics/enums.py:49-56 | a routine exists exactly for the seven test names ttest, manwu, levene, bftest, ks_2samp, CvM, chi2 |
| Enums.PerformanceFunc | pulsar_metrics/metrics/enums.py:59-79 | a routine exists exactly for the twelve performance names |
| Enums.AllMetricNames | pulsar_metrics/metrics/base.py:45-47 | the names a non-custom record accepts are exactly the union of the three registries |
| Enums.MetricKinds | pulsar_metrics/metrics/enums.py:33-40 | there are four metric types and no separate drift-test type |
| Enums.RegistriesDisjoint | pulsar_metrics/metrics/enums.py:43-79 | no name is in two registries |
| Enums.MapeIsMae | pulsar_metrics/metrics/enums.py:77-78 | mape and mae are bound to the same routine, mean_absolute_error |
| Enums.LeveneAndBrownForsythe | pulsar_metrics/metrics/enums.py:52-53 | levene and bftest are levene centred on the mean and on the median |
| MetricsBase.NewMetricResults | pulsar_metrics/metrics/base.py:21-53 | a record is built exactly when the type is a metric type, the name is registered or the type is custom or statistics, and metric_value is a number, a string or None; the type error comes first, then the name error, then the validation error for a list or tuple value |
| MetricsBase.FreeNamedAlwaysAccepted | pulsar_metrics/metrics/base.py:48 | custom and statistics records are accepted under any name, given a value the record accepts |
| MetricsBase.DefaultsAreNone | pulsar_metrics/metrics/base.py:27-31 | feature_name, metric_value, drift_status, threshold and conf_int default to None |
| MetricsBase.UnregisteredNameRejected | pulsar_metrics/metrics/base.py:43-53 | outside custom and statistics, an unregistered name raises the name error |
| MetricsBase.StoredResult | pulsar_metrics/metrics/base.py:80-81 | get_result returns the stored result, or raises AttributeError when none was ever stored |
| MetricsBase.AbstractMetricsInit | pulsar_metrics/metrics/base.py:60-67 | the base initialiser accepts exactly one argument besides self, which becomes the name |
| MetricsBase.CustomResultShape | pulsar_metrics/metrics/base.py:95-111 | a custom result exists exactly when the user function and the threshold policy succeed and the value is not a list or a tuple; it has type custom, no interval, the user value, the threshold echoed and the policy's status on the threshold and upper_bound keywords |
| MetricsBase.CustomWithoutThreshold | pulsar_metrics/metrics/base.py:96-109 | without a threshold keyword a custom metric succeeds, with status None, exactly when its value fits the record; a list or tuple value raises the validation error |
| MetricsBase.CustomMetric.constructor | pulsar_metrics/metrics/base.py:87-93 | the name and the function are kept and no result is stored |
| MetricsBase.CustomMetric.Evaluate | pulsar_metrics/metrics/base.py:95-111 | returns the custom outcome; on success `_result` is that record and get_result returns it; on an exception, the record's validation included, the previous `_result` stays |
| Frames.Select | pulsar_metrics/metrics/performance.py:61-62 | `data[key]` succeeds exactly for a column name of the frame or a list of them; a name gives that column as a Series, a list gives the sub-frame of those columns in the order listed; both keep the frame's row labels |
| Frames.NonNullCount | pulsar_metrics/metrics/statistics.py:111 | the count is at most the length and equals it exactly when no cell is null |
| Frames.NumericColumns | pulsar_metrics/analyzers/base.py:124 | exactly the numeric columns of the frame, each once, in column order |
| Frames.NumericOfOrdered | pulsar_metrics/analyzers/base.py:124 | the numeric selection keeps the relative order of the column names |
| Statistics.Plan | pulsar_metrics/metrics/statistics.py:70-113 | a numeric feature's work is the five statistics in dictionary order, one step per percentile in order, then count; a non-numeric feature's is top then count |
| Statistics.RunStopped | pulsar_metrics/metrics/statistics.py:66-115 | after an exception no later step appends anything |
| Statistics.StopsAt | pulsar_metrics/metrics/statistics.py:66-115 | a raising step ends the evaluation with what was appended before it |
| Statistics.RunEmitsStatistics | pulsar_metrics/metrics/statistics.py:74-112 | every record a run of steps appends has type statistics and the summarised feature |
| Statistics.RunWithoutFailure | pulsar_metrics/metrics/statistics.py:72-113 | when no step raises, each step contributes exactly its record, in order |
| Statistics.CompletedRunEndsWithCount | pulsar_metrics/metrics/statistics.py:106-113 | a run ending in the count step that completes ends with the count record |
| Statistics.NumericSummary | pulsar_metrics/metrics/statistics.py:72-113 | a numeric feature appends mean, median, std, skewness, kurtosis, one record per percentile in order, then count: 5 + len(percentiles) + 1 records, each statistic with its reference value (or None) as threshold |
| Statistics.NonNumericSummary | pulsar_metrics/metrics/statistics.py:94-113 | a non-numeric feature appends only its count; the top record is built and validated but never appended, so a most frequent category that is a list or a tuple raises the validation error and nothing is appended |
| Statistics.CountAlwaysLast | pulsar_metrics/metrics/statistics.py:106-113 | a completed evaluation ends with the non-null count of the feature in current, with no threshold |
| Statistics.SummaryEmitsStatistics | pulsar_metrics/metrics/statistics.py:74-112 | every appended record has type statistics and the summary's feature, so the name validator never rejects one |
| Statistics.ReferenceWithoutFeature | pulsar_metrics/metrics/statistics.py:73 | a reference frame lacking the feature stops a numeric summary before anything is appended |
| Statistics.FeatureSummary.constructor | pulsar_metrics/metrics/statistics.py:20-27 | the feature name is kept and `_result` starts empty |
| Statistics.FeatureSummary.Evaluate | pulsar_metrics/metrics/statistics.py:63-115 | `_result` grows by exactly the records of this evaluation, never cleared, so calls accumulate; a feature missing from current appends nothing |
| Statistics.FeatureSummary.AppendNumericStatistics | pulsar_metrics/metrics/statistics.py:72-93 | both numeric loops append the records of the plan up to count, or stop the evaluation at the first exception |
| Statistics.FeatureSummary.AppendNumericDict | pulsar_metrics/metrics/statistics.py:72-81 | the loop over the five statistics appends their records in order, or stops at the first exception |
| Statistics.FeatureSummary.AppendPercentiles | pulsar_metrics/metrics/statistics.py:84-93 | the loop over the percentiles appends their records in order, or stops at the first exception |
| Statistics.FeatureSummary.Emit | pulsar_metrics/metrics/statistics.py:73-81 | one iteration appends the statistic's record or stops the evaluation |
| Statistics.FeatureSummary.BuildTop | pulsar_metrics/metrics/statistics.py:94-104 | for a non-numeric feature, the current and reference most frequent categories are computed and the `top` record is built and validated; it fails exactly when one of these raises |
| Statistics.FeatureSummary.AppendCount | pulsar_metrics/metrics/statistics.py:106-113 | once the earlier steps have completed, the count record is appended last, completing the plan |
| Statistics.FeatureSummary.Statistic | pulsar_metrics/metrics/statistics.py:73-80 | the record is built exactly when the reference statistic and the current statistic succeed; it has type statistics, the statistic's name and the feature |
| Statistics.StatRecordSucceeds | pulsar_metrics/metrics/statistics.py:72-93 | a statistic that succeeds on the current column and on the reference column is appended with its value and the reference value as threshold |
| Statistics.FeatureSummary.ResultsToPandas | pulsar_metrics/metrics/statistics.py:50-54 | never None, since `_result` is always a list; one row per record in order |
| Drift.ParseDriftKind | pulsar_metrics/metrics/drift.py:22-24 | drift.py's value registry holds exactly kl and wasserstein, and each member carries its own name |
| Drift.ParseTestKind | pulsar_metrics/metrics/drift.py:27-34 | drift.py's test registry holds exactly the seven test names |
| Drift.KindNamesRoundTrip | pulsar_metrics/metrics/drift.py:22-34 | every registry member is found again under its name |
| Drift.LocalRegistriesAgainstEnums | pulsar_metrics/metrics/drift.py:22-34 | the local registries are enums.py's minus psi, with each name bound to the same routine |
| Drift.CheckDriftName | pulsar_metrics/metrics/drift.py:53-55 | passes exactly for names in the local value registry |
| Drift.CheckTestName | pulsar_metrics/metrics/drift.py:120-122 | passes exactly for the seven test names |
| Drift.FeatureColumn | pulsar_metrics/metrics/drift.py:46-51 | the feature column exists exactly when the frame has it; otherwise it is left unset |
| Drift.PValue | pulsar_metrics/metrics/drift.py:144-149 | the p-value is `.pvalue` for CvM and the second of exactly two tuple components for every other test |
| Drift.DriftResultMeaning | pulsar_metrics/metrics/drift.py:77-96 | a drift value result has type drift, the feature, no interval, the threshold echoed, and status value < threshold for a numeric threshold, None otherwise (a list threshold too) |
| Drift.DriftSucceedsIff | pulsar_metrics/metrics/drift.py:75-101 | evaluation succeeds exactly when the column was found and the routine succeeds |
| Drift.TestResultMeaning | pulsar_metrics/metrics/drift.py:142-168 | a test result has type drift, the p-value as value, alpha as threshold, and status pvalue < alpha for a numeric alpha, None otherwise |
| Drift.DefaultAlpha | pulsar_metrics/metrics/drift.py:127 | with the default alpha, drift is flagged exactly when the p-value is below 0.05 |
| Drift.DriftMetric.constructor | pulsar_metrics/metrics/drift.py:46-51 | the feature name is kept, the column is the frame's or unset, and no result is stored |
| Drift.DriftMetric.Evaluate | pulsar_metrics/metrics/drift.py:57-101 | returns the drift outcome; a success overwrites `_result`, a swallowed exception returns None and keeps `_result` |
| Drift.NewDriftMetric | pulsar_metrics/metrics/drift.py:38-51 | construction raises the name-check error exactly for names outside the value registry; a missing feature does not stop it |
| Drift.DriftTestMetric.constructor | pulsar_metrics/metrics/drift.py:113-118 | the feature name is kept, the column is the frame's or unset, and no result is stored |
| Drift.DriftTestMetric.Evaluate | pulsar_metrics/metrics/drift.py:124-173 | returns the test outcome; a success overwrites `_result`, a swallowed exception returns None and keeps `_result` |
| Drift.NewDriftTestMetric | pulsar_metrics/metrics/drift.py:105-118 | construction raises the name-check error exactly for names outside the test registry; a missing feature does not stop it |
| Drift.ConstructionRaisesAsWritten | pulsar_metrics/metrics/drift.py:42 | as written, constructing either drift variant raises TypeError for every name |
| Drift.RegisteredNamesPassCheck | pulsar_metrics/metrics/drift.py:53-55 | the name check alone accepts every registered name |
| Performance.ParsePerformanceKind | pulsar_metrics/metrics/performance.py:26-46 | performance.py's registry holds exactly the twelve names, and each member carries its own name |
| Performance.PerformanceKindRoundTrip | pulsar_metrics/metrics/performance.py:26-46 | every registry member is found again under its name |
| Performance.LocalRegistryIsEnums | pulsar_metrics/metrics/performance.py:26-46 | the local registry is enums.py's, with each name bound to the same routine |
| Performance.CheckPerformanceName | pulsar_metrics/metrics/performance.py:67-71 | passes exactly for the twelve names |
| Performance.PerformanceConstructionRaisesAsWritten | pulsar_metrics/metrics/performance.py:54 | as written, constructing a performance metric raises TypeError for every name |
| Performance.RegisteredNamePassesCheck | pulsar_metrics/metrics/performance.py:67-71 | the name check alone accepts every registered name |
| Performance.Indices | pulsar_metrics/metrics/performance.py:144 | each draw is n indices, each in [0, n); a frame without rows draws nothing |
| Performance.Resample | pulsar_metrics/metrics/performance.py:146 | `.loc[indices]` succeeds exactly when every drawn index labels some row, and otherwise raises KeyError; it takes, for each index in draw order, the rows carrying that label |
| Performance.PositionsExact | pulsar_metrics/metrics/performance.py:146 | the rows a label selects are exactly the rows carrying it, each once, in row order |
| Performance.PositionOfDefaultLabel | pulsar_metrics/metrics/performance.py:146 | on the default index, label i is carried by row i alone |
| Performance.PositionsOnDefaultIndex | pulsar_metrics/metrics/performance.py:146 | on the default index, among the first m rows label i is carried by row i alone when i < m, and by no row otherwise |
| Performance.PicksOnDefaultIndex | pulsar_metrics/metrics/performance.py:146 | on the default index, `.loc[indices]` selects the rows at those positions |
| Performance.ResampledRowsAreDrawn | pulsar_metrics/metrics/performance.py:146 | every resampled row carries one of the drawn labels, and every drawn index gives at least one row |
| Performance.RowsAt | pulsar_metrics/metrics/performance.py:146 | row j of the taken rows is the selected row's label and, in every column, its cell; a sub-frame keeps its column names |
| Performance.ForeignIndexFailsBootstrap | pulsar_metrics/metrics/performance.py:139-147 | when no row is labelled by any of 0 .. n-1 (a filtered or string-indexed frame), every resample and every non-empty bootstrap raises KeyError |
| Performance.ForeignIndexSwallowed | pulsar_metrics/metrics/performance.py:96-124 | on such a frame, a requested bootstrap of at least one repetition makes evaluate swallow the KeyError and return None, leaving `_result` as it was |
| Performance.NoRowsScoresEmpty | pulsar_metrics/metrics/performance.py:139-146 | with no rows, every resample selects no rows and the score routine is called on the two empty selections |
| Performance.BootstrapCollectsOnePerRepetition | pulsar_metrics/metrics/performance.py:141-147 | the bootstrap collects exactly n_bootstrap scores, the i-th from the i-th resample |
| Performance.BootstrapFailsAt | pulsar_metrics/metrics/performance.py:143-147 | the first failing resample ends the bootstrap with its exception |
| Performance.ResampleOnDefaultIndex | pulsar_metrics/metrics/performance.py:146 | on the default index `.loc` at in-range positions succeeds and takes the rows at exactly those positions, in the order drawn |
| Performance.ResampleDrawsRows | pulsar_metrics/metrics/performance.py:139-146 | on the default index each resample draws n = row-count indices from [0, n), with replacement, succeeds, and takes target and prediction at the same rows |
| Performance.IntervalIsQuantilePair | pulsar_metrics/metrics/performance.py:138-148 | the interval is [quantile(values, alpha/2), quantile(values, 1 - alpha/2)] of the n_bootstrap collected scores, and a run with at least one repetition over a frame without rows scored the empty selections successfully |
| Performance.DefaultBootstrap | pulsar_metrics/metrics/performance.py:75-78 | with the defaults the bootstrap makes 100 resamples seeded with 123; the interval exists exactly when the 0.025 and 0.975 quantiles do, and is then that pair |
| Performance.IntervalOfCollectedScores | pulsar_metrics/metrics/performance.py:148 | once every resample has been scored, the interval exists exactly when both the alpha/2 and the 1 - alpha/2 quantiles do, and is then that pair |
| Performance.IntervalFromValues | pulsar_metrics/metrics/performance.py:138-148 | once the n_bootstrap scores are collected, the interval is the quantile pair computed from them |
| Performance.DefaultQuantileBounds | pulsar_metrics/metrics/performance.py:148 | with alpha = 0.05 the bounds exist exactly when the 0.025 and 0.975 quantiles do, and are that pair |
| Performance.PerformanceResultMeaning | pulsar_metrics/metrics/performance.py:96-120 | a result has type performance, feature "prediction", the score of the target and prediction, the threshold echoed, and status value < threshold for a numeric threshold, None otherwise; upper_bound plays no part |
| Performance.ScoreFuncInjective | pulsar_metrics/metrics/performance.py:26-46 | distinct metrics are bound to distinct routines, except mae and mape |
| Performance.MapeReportsMae | pulsar_metrics/metrics/performance.py:44-45 | asking for mape gives exactly the mae result under the name mape |
| Performance.ConfIntOnlyWithBootstrap | pulsar_metrics/metrics/performance.py:98-101 | conf_int is None unless bootstrap is truthy, and then it is the two-quantile bootstrap interval |
| Performance.PerformanceMetric.constructor | pulsar_metrics/metrics/performance.py:58-65 | the target and prediction selections (default y_true, y_pred) are taken when their lookups succeed; when the target lookup raises, neither is set |
| Performance.PerformanceMetric.Evaluate | pulsar_metrics/metrics/performance.py:73-125 | returns the performance outcome; a success overwrites `_result`, a swallowed exception returns None and keeps `_result` |
| Performance.PerformanceMetric.Bootstrap | pulsar_metrics/metrics/performance.py:127-148 | computes the bootstrap interval |
| Performance.PerformanceMetric.Collect | pulsar_metrics/metrics/performance.py:141-147 | the loop collects the scores of the first n_bootstrap resamples, or stops at the first exception |
| Performance.PerformanceMetric.Resampled | pulsar_metrics/metrics/performance.py:144-146 | one repetition scores the resample of the call-th draw, the empty resample when there are no rows |
| Performance.ColumnFor | pulsar_metrics/metrics/performance.py:59-62 | the target (y_name, default y_true) or prediction (pred_name, default y_pred) is set exactly when `data[key]` succeeds; without the option, exactly when the frame has the default column |
| Performance.NewPerformanceMetric | pulsar_metrics/metrics/performance.py:50-65 | keywords that bind `name` or `data` again raise TypeError; otherwise an unknown name raises at construction, outside the guarded lookups; missing columns do not |
| Analyzers.PerformanceRegistrationsMeaning | pulsar_metrics/analyzers/base.py:100-112 | registration keeps the registered names in input order, one metric per listed name, and registers nothing when the keywords bind `name` or `data` again or the target lookup raises |
| Analyzers.FeatureRegistrations | pulsar_metrics/analyzers/base.py:127-137 | a name in either drift registry gives one metric per feature, and a name in neither gives none |
| Analyzers.DriftRegistrationPosition | pulsar_metrics/analyzers/base.py:126-137 | the metric for name i and feature k sits at (drift names before i) * len(features) + k: metric-major, feature-minor; the value registry is tried before the test registry |
| Analyzers.DriftRegistrationsCount | pulsar_metrics/analyzers/base.py:126-137 | each drift name contributes one metric per feature |
| Analyzers.PsiIsNeverRegistered | pulsar_metrics/analyzers/base.py:129-135 | psi is an enums.py drift name but registers nothing |
| Analyzers.StoppedStaysStopped | pulsar_metrics/analyzers/base.py:149-160 | once an exception has ended the loop, the results stay as they were |
| Analyzers.StoppedLeavesRest | pulsar_metrics/analyzers/base.py:149-160 | the metrics after the exception are not evaluated |
| Analyzers.EvolvedStep | pulsar_metrics/analyzers/base.py:151-158 | one iteration changes only its own metric |
| Analyzers.EvolvedAfterStop | pulsar_metrics/analyzers/base.py:149-160 | after an exception no iteration appends or changes anything |
| Analyzers.RunReportsInOrder | pulsar_metrics/analyzers/base.py:150-158 | result p is the `_result` of metric p after its evaluation, in list order; a run with no exception has one result per metric |
| Analyzers.RunCompletesIff | pulsar_metrics/analyzers/base.py:149-160 | a run completes exactly when no iteration raises |
| Analyzers.MissingReferenceFeatureStops | pulsar_metrics/analyzers/base.py:153-154 | a drift metric whose feature is missing from the reference ends the run before its result is appended |
| Analyzers.MissingReferenceFeatureRaises | pulsar_metrics/analyzers/base.py:153 | the iteration of a drift metric whose feature the reference lacks raises at the call |
| Analyzers.RaisingLeavesMetric | pulsar_metrics/analyzers/base.py:153-158 | an iteration that raises leaves its metric as it was |
| Analyzers.StaleResultReported | pulsar_metrics/analyzers/base.py:155-158 | for every kind of metric, an evaluate that swallows its exception while the call itself does not raise keeps the metric's previous `_result`, which the run reports again |
| Analyzers.Analyzer.constructor | pulsar_metrics/analyzers/base.py:21-46 | name, data and description are kept; the metric list and results exist exactly when the metadata block succeeds |
| Analyzers.Analyzer.AddPerformanceMetrics | pulsar_metrics/analyzers/base.py:91-112 | the metric list grows by exactly the performance registrations (nothing when the keywords bind `name` or `data` again), appended after the existing entries; results are untouched |
| Analyzers.Analyzer.AddPerformanceMetric | pulsar_metrics/analyzers/base.py:101-112 | one name appends its metric, or nothing when construction raises (an unknown name, or keywords that bind `name` or `data` again) or the target is missing |
| Analyzers.Analyzer.AppendIfTargeted | pulsar_metrics/analyzers/base.py:103-109 | a constructed performance metric is appended exactly when its target column was found; otherwise the list is unchanged |
| Analyzers.Analyzer.AddDriftMetrics | pulsar_metrics/analyzers/base.py:114-140 | the metric list grows by exactly the drift registrations over the given features or the numeric columns; results are untouched |
| Analyzers.Analyzer.AddDriftMetricForFeatures | pulsar_metrics/analyzers/base.py:127-140 | one name appends its metrics for the features in order |
| Analyzers.Analyzer.AddDriftMetric | pulsar_metrics/analyzers/base.py:128-140 | one name and feature append a distance metric, else a test, else nothing |
| Analyzers.Analyzer.Append | pulsar_metrics/analyzers/base.py:137 | registration only appends; existing entries keep their place |
| Analyzers.Analyzer.Run | pulsar_metrics/analyzers/base.py:142-160 | raises ValueError on an empty list and touches nothing; otherwise it resets the results to the run's trace, with each metric evolved by its evaluation up to the first exception |
| Analyzers.Analyzer.ResetResults | pulsar_metrics/analyzers/base.py:150 | the results become empty and no metric changes |
| Analyzers.Analyzer.EvaluateAll | pulsar_metrics/analyzers/base.py:151-160 | the loop produces the run's trace and the evolved metrics |
| Analyzers.Analyzer.Iterate | pulsar_metrics/analyzers/base.py:151-160 | one iteration, or the final state when it raises |
| Analyzers.Analyzer.Step | pulsar_metrics/analyzers/base.py:151-158 | one iteration appends the metric's `_result` or reports the exception, and changes only that metric |
| Analyzers.Analyzer.GetResult | pulsar_metrics/analyzers/base.py:65-66 | the stored results, or AttributeError when the metadata block failed |
| Analyzers.Analyzer.ResultsToJson | pulsar_metrics/analyzers/base.py:68-72 | `{}` exactly before any run |
| Analyzers.Analyzer.ResultsToPandas | pulsar_metrics/analyzers/base.py:74-78 | None exactly before any run |
| Analyzers.Evaluate | pulsar_metrics/analyzers/base.py:152-156 | the call of one iteration, with options looked up by metric name, default `{}`; a failing reference lookup leaves the metric as it was |
| Analyzers.ExportsAgree | pulsar_metrics/analyzers/base.py:68-78 | after a run, the JSON list and the table have one entry per result, in the same order |

## Findings

| source | as written | input that shows it | evidently intended | confidence | as-written member | corrected member |
|---|---|---|---|---|---|---|
| pulsar_metrics/metrics/drift.py:42 | `DriftMetric.__init__` calls `super().__init__(name, data)`, but `AbstractMetrics.__init__` takes only `metric_name`, so construction raises TypeError before the name check | `DriftMetric("kl", df, "x")` with any frame `df` | the base initialiser of the earlier interface, which takes the name and the data, so a registered name builds a metric | high, not executed | Drift.ConstructionRaisesAsWritten | Drift.NewDriftMetric |
| pulsar_metrics/metrics/drift.py:109 | `DriftTestMetric.__init__` makes the same two-argument call | `DriftTestMetric("ttest", df, "x")` | as above, a registered test name builds a metric | high, not executed | Drift.ConstructionRaisesAsWritten | Drift.NewDriftTestMetric |
| pulsar_metrics/metrics/performance.py:54 | `PerformanceMetric.__init__` makes the same two-argument call | `PerformanceMetric("accuracy", df)` | as above, a registered name builds a metric | high, not executed | Performance.PerformanceConstructionRaisesAsWritten | Performance.NewPerformanceMetric |

As written, the Analyzer's registration swallows these TypeErrors. Its metric list therefore
stays empty, and `run` raises the empty-list ValueError. The rest of the model uses the
corrected constructors.

## Left out

- The rest of the earlier base interface:
  - `_model_id`, `_model_version`, `_period_start` and `_period_end` are read by the drift and performance `evaluate`, but they are never set;
  - the records carry the keywords `type`, `value`, `status` and `feature`, which the current `MetricResults` does not declare.

  The model assumes that interface. `LegacyResult` leaves out the model id, version and period fields, and no validation is applied to these records.
- pulsar_metrics/metrics/utils.py (KL divergence, PSI, MMD, binning) is not part of this model. These routines are floating-point numerics and appear only as abstract routines of `DriftLibrary`.
- The scipy, sklearn and numpy routines and numpy's random generator are parameters. Floating point is modelled as exact reals, with no NaN or infinity.
- Performance.Indices: the generator's mapping from raw output to a bounded integer is abstracted as reduction modulo n. Only the shape of the draw is stated (n indices in [0, n), one draw per call, determined by the seed).
- Statistics.StatsLibrary: the percentile record name `"P" + str(constant.HUNDRED * percentile)` is an abstract `percentileName`, because it is float-to-string formatting over a module that is not part of this model.
- Analyzers.Analyzer.constructor: the `pd.to_datetime`, `unique()[0]` and timestamp min/max work is reduced to whether the needed columns exist and the frame has rows. A timestamp column that fails to parse is not modelled. Neither is the mutation of the caller's frame, which happens instead of a mutation of the copy.
- Analyzers.Analyzer.ResultsToJson: pydantic's `.json()` is an abstract `encode`. `results_to_pandas`' `DataFrame.from_records` is a table of the records. Only length and order are stated.
- pydantic's field coercion (for example a string metric value in a float field) is not modelled. Record fields keep the values they are given. Only whether a field is accepted is modelled: metric_value rejects a list or a tuple, and the threshold field accepts every value, since it converts a tuple to a list.
- Values that are not `PyValue`s are not represented. Examples are a Timestamp as the most frequent category, which pydantic would reject as a metric value, and non-string column names.
- Frames: duplicate column names are not represented; pandas allows them, and `data[name]` then returns a sub-frame.
- Performance.LabelMatches: labels are matched against a drawn integer numerically. The finer rules of pandas' index types, such as a datetime index, are not modelled; such a label never matches.
- Printing of swallowed exceptions and of registration messages is left out, as are the empty stubs `schedule`, `log_results` and the abstract `add_drift_test_metrics`.
- `CustomExceptionPulsarMetric` (pulsar_metrics/exceptions.py) is the `PulsarError` case of `Error`. It subclasses `Exception`, not `ValueError`. The model does not track exception classes beyond the `Error` cases.
- tests/TestConfiguration.py (JSON file reading) is not part of this model.
