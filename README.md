# flex — a verified model of the metric pipeline, collectors and stress workloads

The flex repository drives Kubernetes pods into memory, CPU and disk stress. It collects the
pods' container metrics from cAdvisor and Prometheus and turns them into a labelled dataset
for overload prediction. This project models, in Dafny, the deterministic logic inside those
tools. It proves what the code promises about that logic.

* **Metrics-to-ML-dataset pipeline.** The lab generator and the collection system are two
  diverging copies of the same pipeline. The model covers:
  * threshold validation and the dict round trip (`Thresholds`);
  * PromQL selector construction and sample extraction (`PromQueries`);
  * the long-to-wide pivot (`Pivot`);
  * guarded derived features with clipping (`DerivedFeatures`, `LabFeatures`, `DerivedStage`,
    all built on the column-rule engine of `Frames`);
  * clock and day-period features (`Temporal`);
  * per-(pod, container) windowed statistics (`Groups`, `Sorting`, `Statistics`);
  * the threshold labels and the severity overwrite (`Labels`);
  * what the feature frame keeps of the pivoted samples through the later stages and the
    sort (`FeatureValues`);
  * the composition of the stages and the dataset clean-up (`Dataset`).

  A table is a sequence of rows: a key plus a map from column name to a cell. A numeric cell
  is an extended real (`Numbers.Num`: finite, ±∞ or NaN), and a missing value is NaN, as in
  pandas.
* **Metric parsing and record shaping.** The model covers:
  * the Prometheus text-format subset of the pod collector and its per-container grouping
    (`PromText`, `PodCollector`);
  * the cAdvisor REST extractors and snapshot skip rules (`CadvisorClient`);
  * the exporter's query templates and its `(timestamp, container)` merge (`Exporter`);
  * the metric catalogue with its dedup and first-match categorisation (`MetricsCatalog`).

  JSON values are `JsonValues.Json`, and Python dicts are insertion-ordered dicts
  (`OrderedDicts`).
* **Binary search trees.**
  * The HTTP stress server's recursive tree is a heap class. Its ghost model is a
    `SearchTree.Tree` value, and insert, search and count are proved through that value.
    The server's manager state and request validation are modelled too (`HttpTree`).
  * The memory stress tool's iterative tree is an arena: a node list whose links are
    positions. Its iterative insert is proved to be the recursive insert, and its stack
    traversal is proved to count every node (`IterativeTree`).
* **Primes.** The model covers trial-division primality, the first-`n`-primes generator and
  the count checks of both endpoints (`Primes`).
* **Memory ledger.** The model covers the block list and megabyte counter of the memory
  stress generator, its LIFO release and the allocation loops of two scenarios
  (`MemoryLedger`).

Clocks, randomness, psutil readings, HTTP responses and the outcome of a memory allocation are
parameters of the operations that use them.

A few behaviours of the code are easy to misread; the model states them as the code has them:

* **Severity at 80% memory.** The comparison is a strict `>`, so 80% memory usage with an
  overload threshold of 80 is not an overload: overload 0, severity 1
  (`Labels.EightyPercentMemory`).
* **Day-period bins.** The `pd.cut` bins are right-closed with the lowest edge included:
  hours `[0, 6]` are `madrugada`, `(6, 12]` `manha`, `(12, 18]` `tarde` and `(18, 24]` `noite`
  (`Temporal.Period`).
* **Non-numeric values.** Only the literal `'NaN'` becomes NaN; `float()` raises on anything
  else that is not a number, and the model's extraction then yields an error
  (`PromQueries.SampleValue`).

## Model

| member | source | states |
|---|---|---|
| Thresholds.Make | lab/ml_dataset_generator.py:32-88 | construction succeeds exactly when memory, CPU and disk each satisfy `0 <= warning < overload < critical <= 100`; the error names the first failing resource in the order memory, CPU, disk |
| Thresholds.LabDefaults | lab/ml_dataset_generator.py:32-41 | the lab generator's default thresholds (30/40/50, 70/80/90, 75/85/95) pass the constructor's check |
| Thresholds.ColetaDefaults | apps/kube-stress/coleta/sistema_coleta_dados.py:30-39 | the collection system's default thresholds (70/80/90, 70/80/90, 75/85/95) pass the constructor's check |
| Thresholds.ToDict | lab/ml_dataset_generator.py:90-108 | the dictionary has exactly the three sections memory, cpu and disk |
| Thresholds.LevelsFields | lab/ml_dataset_generator.py:90-108 | each section maps warning, overload and critical to the stored numbers |
| Thresholds.SectionOfToDict | lab/ml_dataset_generator.py:90-108 | reading the three levels of a section of `to_dict()` yields that resource's stored thresholds |
| Thresholds.FromDict | lab/ml_dataset_generator.py:116-133 | a configuration loaded from a dictionary always satisfies the ordering check |
| Thresholds.Construct | lab/ml_dataset_generator.py:122-133 | building from the nine values read succeeds only with valid thresholds |
| Thresholds.ConstructNumbers | lab/ml_dataset_generator.py:32-88 | building from the numbers of a valid configuration gives back that configuration |
| Thresholds.RoundTrip | lab/ml_dataset_generator.py:90-133 | loading back what `to_dict()` produced rebuilds the same configuration |
| Thresholds.FromDictOnlyValid | lab/ml_dataset_generator.py:116-133 | a loaded configuration is valid, and saving then loading it again returns it unchanged |
| PromQueries.Filters | lab/ml_dataset_generator.py:400-409 | the matchers are the two container exclusions at positions 0 and 1, `resource="memory"` at position 2 exactly for the lab copy's `memory_limit`, the pod regex right after that when a pod filter is given, and the namespace last when given; no other matcher is present |
| PromQueries.LabQuery | lab/ml_dataset_generator.py:411-423 | a template that does not start with `rate(` gets the selector appended |
| PromQueries.ColetaQuery | apps/kube-stress/coleta/sistema_coleta_dados.py:250 | the collection system's query is the template followed by the selector |
| PromQueries.ReplaceTrailing | lab/ml_dataset_generator.py:415 | removing every occurrence of a character that occurs only at the end drops just that character |
| PromQueries.IndexOfAfter | lab/ml_dataset_generator.py:416-417 | the first occurrence of a character is located after a prefix that does not contain it |
| PromQueries.DropRatePrefix | lab/ml_dataset_generator.py:415 | removing `rate(` from `rate(NAME[WIN])` leaves `NAME[WIN])` |
| PromQueries.DropClosingParen | lab/ml_dataset_generator.py:415 | removing `)` from `NAME[WIN])` leaves `NAME[WIN]` |
| PromQueries.SplitAtBracket | lab/ml_dataset_generator.py:416-417 | splitting `NAME[WIN]` at `[` gives the name and `WIN]` |
| PromQueries.LabRateInjection | lab/ml_dataset_generator.py:412-420 | for a rate template the lab copy puts the selector inside the rate: `rate(NAME{filters}[WIN])` |
| PromQueries.CopiesAgreeOffRate | lab/ml_dataset_generator.py:421-423 | both copies build the same query from a template that is not a rate |
| PromQueries.CopiesDivergeOnRate | apps/kube-stress/coleta/sistema_coleta_dados.py:250 | for a rate template the collection system appends the selector after the closing parenthesis, while the lab copy puts it inside, so the two queries differ |
| PromQueries.SampleValue | lab/ml_dataset_generator.py:439 | a value is `'NaN'` or parsed as Python's `float` does; an unparsable value is an error |
| PromQueries.PointsToSamples | lab/ml_dataset_generator.py:435-445 | the loop over one series' points yields the specified records, or the first parse error |
| PromQueries.PointErrorPersists | lab/ml_dataset_generator.py:435-445 | once a point fails to parse, the later points do not change the outcome |
| PromQueries.SeriesErrorPersists | lab/ml_dataset_generator.py:434-445 | once a series fails, the later series do not change the outcome |
| PromQueries.SeriesToSamples | lab/ml_dataset_generator.py:434-445 | the loop over the series of one answer yields the specified records, or the first error |
| PromQueries.ExtractErrorPersists | lab/ml_dataset_generator.py:398-445 | an error in one catalogue entry ends the extraction with that error |
| PromQueries.ExtractEntry | lab/ml_dataset_generator.py:398-445 | one catalogue entry: the query sent and its records; nothing is recorded unless the answer has status `success` |
| PromQueries.ExtractMetrics | lab/ml_dataset_generator.py:371-454 | the loop over the catalogue computes the specified extraction |
| PromQueries.PointSamplesShape | lab/ml_dataset_generator.py:435-445 | one record per point, in order: its timestamp, its parsed value and the series' pod, container, namespace and node labels (`''` when missing) |
| PromQueries.OneQueryPerEntry | lab/ml_dataset_generator.py:426 | one query is recorded per catalogue entry, in catalogue order |
| PromQueries.EntryNamed | lab/ml_dataset_generator.py:438 | every record of an entry carries that entry's metric name |
| PromQueries.ExtractedNamesFromCatalogue | lab/ml_dataset_generator.py:398-445 | every extracted record belongs to a metric of the catalogue |
| PromQueries.SeriesSamplesNamed | lab/ml_dataset_generator.py:438 | every record of a series carries the metric name |
| DerivedFeatures.Flag | lab/ml_dataset_generator.py:574 | an indicator column holds 1 exactly when the condition holds and 0 otherwise |
| DerivedFeatures.MemoryUsagePercent | lab/ml_dataset_generator.py:511-513 | the memory percentage is missing or within [0, 100] after the clip, and equals working set / limit * 100 when the working set lies between 0 and a positive limit |
| DerivedFeatures.PercentOfLimit | lab/ml_dataset_generator.py:512 | a share of a positive limit is a percentage between 0 and 100 |
| DerivedFeatures.CpuUsagePercent | lab/ml_dataset_generator.py:516-519 | the CPU percentage is missing or within [0, 200] after the clip, and missing when usage, quota or period is missing |
| DerivedFeatures.DiskUsagePercent | lab/ml_dataset_generator.py:522-524 | the disk percentage is missing or within [0, 100], and missing when usage or limit is missing |
| DerivedFeatures.UtilisationIndependent | lab/ml_dataset_generator.py:510-524 | no utilisation rule reads a column another one writes, so their order does not matter |
| DerivedFeatures.Utilisation | lab/ml_dataset_generator.py:510-524 | each percentage column is derived, by its formula, exactly when its input columns are present; other columns are unchanged; new percentage columns stay within their clip bounds |
| DerivedFeatures.ThrottlingRate | lab/ml_dataset_generator.py:527-528 | throttled time / (throttled periods + 0.001); missing when either input is missing |
| DerivedFeatures.RssShare | apps/kube-stress/coleta/sistema_coleta_dados.py:349 | RSS / (memory usage + 1) |
| DerivedFeatures.CacheShare | apps/kube-stress/coleta/sistema_coleta_dados.py:350 | cache / (memory usage + 1) |
| DerivedFeatures.NetworkTotalBytes | lab/ml_dataset_generator.py:536-537 | received plus transmitted bytes |
| DerivedFeatures.DiskIoTotal | lab/ml_dataset_generator.py:540-541 | bytes read plus bytes written |
| DerivedFeatures.ThreadsPerProcess | lab/ml_dataset_generator.py:544-545 | threads / (processes + 1) |
| DerivedFeatures.BaseRatiosIndependent | lab/ml_dataset_generator.py:526-545 | the ratio rules write distinct columns and read none of them |
| DerivedFeatures.BaseRatios | lab/ml_dataset_generator.py:526-545 | each ratio column is derived exactly when its guard columns are present, and no other column changes; the RSS and cache shares are guarded by RSS, cache and memory usage together (the corrected guard, see Findings) |
| DerivedFeatures.RssSharesAsWritten | lab/ml_dataset_generator.py:531-533 | as written: with RSS and cache present but memory usage absent the step fails with a `KeyError` on `memory_usage_bytes`; otherwise it derives both shares |
| DerivedFeatures.RssCacheKeyError | lab/ml_dataset_generator.py:531-533 | a frame holding only `memory_rss` and `memory_cache` passes the guard as written but not the corrected guard |
| LabFeatures.ErrorRatio | lab/ml_dataset_generator.py:554-555 | the error ratio is missing whenever the total traffic is missing |
| LabFeatures.DegradationIndependent | lab/ml_dataset_generator.py:549-570 | the degradation rules write six distinct columns and read none of them |
| LabFeatures.Degradation | lab/ml_dataset_generator.py:549-570 | network error rate, error ratio, dropped packets, read and write latency and descriptors per process are each derived exactly when their guard columns are present; no other column changes |
| LabFeatures.OomFlag | lab/ml_dataset_generator.py:573-574 | the OOM indicator is 1 exactly when the OOM kill rate is above 0 |
| LabFeatures.RestartFlag | lab/ml_dataset_generator.py:577-578 | the restart indicator is 1 exactly when the restart count is above 0 |
| LabFeatures.PodAge | lab/ml_dataset_generator.py:584-585 | the pod age is the current time minus the start time |
| LabFeatures.PodAgeHours | lab/ml_dataset_generator.py:586 | the age in hours is the age in seconds divided by 3600 |
| LabFeatures.RestartRate | lab/ml_dataset_generator.py:580 | one value per row, never missing, and 0 on the first row of each (pod, container) group |
| LabFeatures.AgeRulesCompute | lab/ml_dataset_generator.py:583-586 | the two age rules compute the age in seconds and in hours |
| LabFeatures.RestartSignals | lab/ml_dataset_generator.py:572-580 | the OOM and restart indicators are derived exactly when their inputs are present, and the restart rate is the per-group difference filled with 0 |
| LabFeatures.FlagsKept | lab/ml_dataset_generator.py:574 | a column derived by an indicator rule holds only 0 and 1 |
| LabFeatures.AgeSignals | lab/ml_dataset_generator.py:582-586 | the pod age in seconds and in hours are derived exactly when the start time is present, and no other column changes |
| LabFeatures.Lifecycle | lab/ml_dataset_generator.py:572-586 | the OOM, restart and age columns are derived exactly when their inputs are present, the indicators hold only 0 and 1, and no other column changes |
| LabFeatures.Headroom | lab/ml_dataset_generator.py:591 | headroom is the limit minus the working set |
| LabFeatures.HeadroomPercent | lab/ml_dataset_generator.py:592 | headroom as a percentage of a non-zero limit |
| LabFeatures.PressureFlag | lab/ml_dataset_generator.py:595 | memory pressure is 1 exactly when the memory percentage is above 80 |
| LabFeatures.SaturationFlag | lab/ml_dataset_generator.py:598-599 | CPU saturation is 1 exactly when some period was throttled |
| LabFeatures.PressureIndependent | lab/ml_dataset_generator.py:588-610 | the pressure rules write seven distinct columns and read none of them |
| LabFeatures.UntouchedByPressure | lab/ml_dataset_generator.py:588-610 | no pressure rule's guard or input is one of the columns the pressure stage writes |
| LabFeatures.Pressure | lab/ml_dataset_generator.py:588-610 | headroom, pressure, saturation, I/O wait and overcommit columns are each derived exactly when their guard columns are present, the indicators hold only 0 and 1, and no other column changes |
| LabFeatures.PresentOf | lab/ml_dataset_generator.py:613-625 | the factors kept are exactly the listed columns the frame has |
| LabFeatures.Values | lab/ml_dataset_generator.py:629 | the values of the present factors in one row, in order |
| LabFeatures.Ones | lab/ml_dataset_generator.py:629 | the number of factors at 1 is at most the number of factors |
| LabFeatures.Indicators | lab/ml_dataset_generator.py:638-641 | each network factor becomes the indicator of being above 0 |
| LabFeatures.AddCounts | lab/ml_dataset_generator.py:629 | adding two whole counts as numbers gives their sum |
| LabFeatures.TotalOfFlags | lab/ml_dataset_generator.py:629 | the sum of 0/1 indicators is the number of indicators at 1 |
| LabFeatures.OnesPositive | lab/ml_dataset_generator.py:632 | the count of ones is positive exactly when some indicator is 1 |
| LabFeatures.SumOfFlags | lab/ml_dataset_generator.py:627-632 | over 0/1 stability factors the instability score counts the active factors, and it is positive exactly when some factor is active |
| LabFeatures.FlagSumCounts | lab/ml_dataset_generator.py:643-645 | the network score counts the factors above 0, and it is positive exactly when some factor is above 0 |
| LabFeatures.StabilitySums | lab/ml_dataset_generator.py:629 | one instability score per row: the sum of that row's present stability factors |
| LabFeatures.NetworkSums | lab/ml_dataset_generator.py:644 | one network score per row: the number of that row's factors above 0 |
| LabFeatures.SetScore | lab/ml_dataset_generator.py:627-645 | writes the score column and its 0/1 indicator (score above 0), or nothing when no factor is present; no other column changes |
| LabFeatures.Scores | lab/ml_dataset_generator.py:612-645 | the instability score and the network score, with their indicators, are computed from the factor columns present; no other column changes |
| DerivedStage.FlagColumnKept | lab/ml_dataset_generator.py:612-625 | a 0/1 column that a later stage does not touch stays a 0/1 column |
| DerivedStage.PresentOfSame | lab/ml_dataset_generator.py:613-625 | frames with the same factor columns keep the same factors |
| DerivedStage.Counted | lab/ml_dataset_generator.py:627-632 | when the stability factors are 0/1 columns, the instability score counts the active factors and `is_unstable` is 1 exactly when one of them is active |
| DerivedStage.DegradationStep | lab/ml_dataset_generator.py:549-570 | the degradation stage changes only its own columns |
| DerivedStage.LifecycleStep | lab/ml_dataset_generator.py:572-586 | the lifecycle stage changes only its own columns, and new indicator columns hold only 0 and 1 |
| DerivedStage.PressureStep | lab/ml_dataset_generator.py:588-610 | the pressure stage changes only its own columns, and new indicator columns hold only 0 and 1 |
| DerivedStage.ScoresStep | lab/ml_dataset_generator.py:612-645 | the score stage changes only its own columns and computes the instability score from the factors present |
| DerivedStage.FactorsOutsideStages | lab/ml_dataset_generator.py:549-645 | no earlier stage writes a stability factor the later stages read, nor the score columns |
| DerivedStage.LabStages | lab/ml_dataset_generator.py:547-645 | the lab copy's extra stages change only their columns, and on a frame without precomputed factors the instability score counts the active factors |
| DerivedStage.FactorsFlagged | lab/ml_dataset_generator.py:572-625 | after the lifecycle and pressure stages every stability factor present is a 0/1 column and no score column exists yet |
| DerivedStage.CalculateDerivedFeatures | lab/ml_dataset_generator.py:506-647 | the step fails with a `KeyError` on `memory_usage_bytes` exactly when the RSS and cache columns are present without it; otherwise either copy changes only its derived columns, derives the three usage percentages from the input (memory and disk clipped to 0..100, CPU to 0..200) and the six base ratios from the input's columns, and the lab copy's instability score counts the active 0/1 factors |
| DerivedStage.BothCopies | lab/ml_dataset_generator.py:510-545 | the percentage and ratio blocks both copies run fail with the `KeyError` exactly when RSS and cache are present without memory usage; otherwise they change only their columns and derive the percentages and ratios from the input |
| DerivedStage.LabAfterColeta | lab/ml_dataset_generator.py:547-645 | the lab copy's later stages keep the percentages and ratios already derived, change only the lab's derived columns, and count the active factors in the instability score |
| DerivedStage.PercentagesFromBlock | lab/ml_dataset_generator.py:510-524 | each usage percentage is its quotient times 100 under its guard, and a newly written memory or disk percentage lies in 0..100 and a CPU one in 0..200 |
| DerivedStage.PercentagesKept | lab/ml_dataset_generator.py:526-645 | a later step writing no percentage column keeps the derived percentages and their clip bounds |
| DerivedStage.RatiosKept | lab/ml_dataset_generator.py:547-645 | a later step writing no ratio column keeps the derived ratios |
| DerivedStage.RatiosFromInput | lab/ml_dataset_generator.py:526-545 | the six ratios computed after the percentage block are the ratios of the input frame |
| DerivedStage.LabStagesApart | lab/ml_dataset_generator.py:547-645 | the lab copy's later stages write no column of the percentage and ratio blocks |
| DerivedStage.RssKeyErrorKept | lab/ml_dataset_generator.py:531-533 | the percentage block does not change whether the memory share rule raises |
| DerivedStage.FactorsOutsideColeta | apps/kube-stress/coleta/sistema_coleta_dados.py:323-364 | the collection system's copy writes no indicator and no score column |
| DerivedStage.RatiosAvoidPercents | apps/kube-stress/coleta/sistema_coleta_dados.py:343-362 | no ratio rule reads or writes a percentage column |
| DerivedStage.ColetaStages | apps/kube-stress/coleta/sistema_coleta_dados.py:323-364 | the collection system's ratio stage fails with a `KeyError` on `memory_usage_bytes` exactly when the RSS and cache columns are present without it; otherwise it changes only its derived columns, keeps the percentages already derived, and derives the six base ratios from the input frame's columns |
| Frames.Column | lab/ml_dataset_generator.py:512 | a column has one value per row |
| Frames.Keys | lab/ml_dataset_generator.py:477-482 | one (timestamp, pod, container, namespace, node) key per row |
| Frames.SetColumn | lab/ml_dataset_generator.py:512 | assigning a column sets that cell of every row, appends the column name when it is new, and keeps the row keys |
| Frames.NumCells | lab/ml_dataset_generator.py:512 | numbers become numeric cells one for one |
| Frames.SetNumbers | lab/ml_dataset_generator.py:512 | after assigning numbers to a column, that column reads back those numbers and every other column is unchanged |
| Frames.Derive | lab/ml_dataset_generator.py:511-513 | a guarded assignment writes the column exactly when every guard column is present and otherwise leaves the frame unchanged |
| Frames.Map | lab/ml_dataset_generator.py:512 | an element-wise formula gives one value per row, computed from that row |
| Frames.MapUnchanged | lab/ml_dataset_generator.py:506-570 | a formula reading only untouched columns computes the same values after other columns were written |
| Frames.ApplyRules | lab/ml_dataset_generator.py:506-570 | a sequence of independent guarded assignments derives each rule's column from the input frame and changes no other column |
| Frames.StepFromInput | lab/ml_dataset_generator.py:506-570 | rules that read none of an earlier step's columns compute the same values from the original frame |
| Frames.GroupTimeOrder | lab/ml_dataset_generator.py:673 | ordering rows by (pod, container, timestamp) is a strict order |
| Frames.KeyOrder | lab/ml_dataset_generator.py:477-482 | ordering the pivot keys is a strict total order |
| Frames.StringOrder | lab/ml_dataset_generator.py:673 | comparing strings as Python does is a strict total order |
| Pivot.RowKeys | lab/ml_dataset_generator.py:477-482 | the pivot's index is every (timestamp, pod, container, namespace, node) key with an observed value, sorted, once each |
| Pivot.MetricNames | lab/ml_dataset_generator.py:477-482 | the pivot's columns are the metric names with an observed value, sorted, once each |
| Pivot.First | lab/ml_dataset_generator.py:481 | a cell is the first observed value for its key and metric, and missing exactly when no value was observed |
| Pivot.PivotRow | lab/ml_dataset_generator.py:477-482 | one row per key, with a cell for every metric column |
| Pivot.PivotTable | lab/ml_dataset_generator.py:477-482 | the pivot table has the sorted observed metrics as columns, the sorted observed keys as rows, and each cell holds the first observed value |
| Pivot.NonEmptyColumns | lab/ml_dataset_generator.py:485 | the columns kept are exactly those with some present value |
| Pivot.DropEmptyColumns | lab/ml_dataset_generator.py:485 | dropping the all-missing columns keeps the rows and every value of the columns that remain |
| Pivot.PivotRowsObserved | lab/ml_dataset_generator.py:477-482 | every pivot row has some present value |
| Pivot.PivotColumnsObserved | lab/ml_dataset_generator.py:477-482 | every pivot column has some present value |
| Pivot.NonEmptyColumnsAll | lab/ml_dataset_generator.py:485 | when every column has a present value, all columns are kept |
| Pivot.DropEmptyColumnsOfPivot | lab/ml_dataset_generator.py:485 | dropping empty columns after the pivot changes nothing |
| Pivot.RestrictAll | lab/ml_dataset_generator.py:485 | keeping every column of a row keeps the row unchanged |
| Sorting.InsertUnique | lab/ml_dataset_generator.py:477-482 | inserting into a strictly sorted sequence keeps it strictly sorted and adds exactly the new element |
| Sorting.InsertSorted | lab/ml_dataset_generator.py:673 | inserting into a sorted sequence keeps it sorted and adds exactly one copy of the element |
| Sorting.InsertionSort | lab/ml_dataset_generator.py:673 | the sort yields a sorted permutation of its input |
| Temporal.Hour | lab/ml_dataset_generator.py:653 | the hour of a timestamp is in [0, 24) |
| Temporal.Minute | lab/ml_dataset_generator.py:655 | the minute is in [0, 60) |
| Temporal.DayOfWeek | lab/ml_dataset_generator.py:654 | the day of the week is in [0, 7), Monday being 0 |
| Temporal.Period | lab/ml_dataset_generator.py:658-661 | hours 0 to 6 are `madrugada`, 7 to 12 `manha`, 13 to 18 `tarde` and 19 to 23 `noite` (right-closed bins with the lowest edge included) |
| Temporal.IsWeekend | lab/ml_dataset_generator.py:664 | the weekend indicator is 1 exactly on Saturday and Sunday |
| Temporal.TimeOfDay | lab/ml_dataset_generator.py:653-655 | hour, minute and second recompose the time of day |
| Temporal.NextDay | lab/ml_dataset_generator.py:653-655 | one day later the day of the week advances by one, modulo 7, and the hour and minute stay the same |
| Temporal.Epoch | lab/ml_dataset_generator.py:653-664 | 1970-01-01 00:00 is a Thursday in the `madrugada`, and two days later is a weekend day |
| Temporal.Hours | lab/ml_dataset_generator.py:653 | the hour column has the hour of each row's timestamp |
| Temporal.Days | lab/ml_dataset_generator.py:654 | the day-of-week column has the day of each row's timestamp |
| Temporal.Minutes | lab/ml_dataset_generator.py:655 | the minute column has the minute of each row's timestamp |
| Temporal.Periods | lab/ml_dataset_generator.py:658-661 | the period column has each hour's period |
| Temporal.Weekends | lab/ml_dataset_generator.py:664 | the weekend column has each day's indicator |
| Temporal.ClockColumns | lab/ml_dataset_generator.py:653-655 | hour, day of week and minute are written from the timestamps; no other column changes |
| Temporal.AddTemporalFeatures | lab/ml_dataset_generator.py:649-666 | the five temporal columns hold each row's hour, day, minute, period and weekend indicator; no other column changes |
| Groups.GroupBefore | lab/ml_dataset_generator.py:682 | the earlier rows of a (pod, container) group, in order |
| Groups.Previous | lab/ml_dataset_generator.py:695 | the previous row of the same (pod, container) group: the nearest earlier row of the group, or none when there is none |
| Groups.FillNaN | lab/ml_dataset_generator.py:698 | `fillna` replaces only a missing value |
| Groups.DiffAt | lab/ml_dataset_generator.py:695 | the difference with the group's previous row, missing on a group's first row |
| Groups.GroupDiff | lab/ml_dataset_generator.py:695 | one difference per row |
| Groups.FillColumn | lab/ml_dataset_generator.py:580 | `fillna` applied cell by cell |
| Statistics.SortByGroupTime | lab/ml_dataset_generator.py:673 | the rows are reordered, none lost or added, into (pod, container, timestamp) order |
| Statistics.SortedGroupsInTime | lab/ml_dataset_generator.py:673 | after the sort, the rows of one group are in time order |
| Statistics.Window | lab/ml_dataset_generator.py:685-687 | the rolling window of a row is the row and up to four earlier rows of its group, in order |
| Statistics.WindowTakesLatest | lab/ml_dataset_generator.py:685-687 | an earlier row of the group is left out only when the window is full and the row precedes all its members |
| Statistics.WindowValues | lab/ml_dataset_generator.py:685-692 | the values of a row's window |
| Statistics.Valid | lab/ml_dataset_generator.py:686 | the window values that are not missing |
| Statistics.Mean | lab/ml_dataset_generator.py:686 | the rolling mean is missing when the window has no value (`min_periods=1`) |
| Statistics.MeanWithin | lab/ml_dataset_generator.py:686 | the mean of values within bounds is within the same bounds |
| Statistics.SquaredDeviations | lab/ml_dataset_generator.py:691 | a sum of squared deviations is not negative |
| Statistics.Variance | lab/ml_dataset_generator.py:691 | the sample variance is missing exactly when fewer than two finite values are present, and otherwise not negative |
| Statistics.ConstantVariance | lab/ml_dataset_generator.py:691 | a constant window has variance 0 |
| Statistics.VarianceUnfold | lab/ml_dataset_generator.py:691 | the variance is the sum of squared deviations from the mean divided by n - 1 |
| Statistics.RollingMean | lab/ml_dataset_generator.py:685-687 | one rolling mean per row, over that row's window |
| Statistics.RollingVariance | lab/ml_dataset_generator.py:690-692 | one rolling variance per row, over that row's window |
| Statistics.PctChangeAt | lab/ml_dataset_generator.py:698 | the relative change from the group's previous row, missing on a group's first row |
| Statistics.PctChange | lab/ml_dataset_generator.py:698 | the relative change with missing values replaced by 0, so 0 on each group's first row |
| Statistics.GroupIsolation | lab/ml_dataset_generator.py:682-698 | a row's rolling mean, variance, difference and change depend only on its own group's rows up to it |
| Statistics.RollingMeanWithin | lab/ml_dataset_generator.py:685-687 | the rolling mean of a bounded column stays within the bounds |
| Statistics.AddMetricStats | lab/ml_dataset_generator.py:679-698 | for a present metric the four statistics columns are written; an absent metric leaves the frame unchanged |
| Statistics.MetricOutside | lab/ml_dataset_generator.py:676-677 | no statistics column is named like a metric |
| Statistics.NamesApart | lab/ml_dataset_generator.py:676-698 | the statistics columns of different metrics are distinct and none is a metric |
| Statistics.AddStatisticalFeatures | lab/ml_dataset_generator.py:668-700 | after the sort, each present metric gets its rolling mean, rolling variance, difference and change columns; the statistics columns of an absent metric are neither added nor dropped; no other column changes |
| Labels.ResourceTiers | lab/ml_dataset_generator.py:719-746 | one (warning, overload, critical) triple per row for a resource |
| Labels.Overwrite | lab/ml_dataset_generator.py:760-772 | `df.loc[condition, 'overload_severity'] = v` sets exactly the rows meeting the condition and keeps the others |
| Labels.AssignSeverity | lab/ml_dataset_generator.py:753-772 | starting from 0 and overwriting with 1, 2 and 3 in turn leaves each row at its highest tier reached by any resource |
| Labels.FlagRules | lab/ml_dataset_generator.py:719-746 | the nine label rules compare each resource's usage with its warning, overload and critical thresholds |
| Labels.FlagRuleReads | lab/ml_dataset_generator.py:720 | a label rule reads only its usage column |
| Labels.FlagNamesDistinct | lab/ml_dataset_generator.py:719-746 | the nine label columns are distinct |
| Labels.FlagRulesIndependent | lab/ml_dataset_generator.py:719-746 | no label rule reads a column another one writes |
| Labels.FlagStage | lab/ml_dataset_generator.py:719-746 | each label column is 1 exactly when the usage column is present and strictly above the threshold; an absent usage gives 0 |
| Labels.ReadTiers | lab/ml_dataset_generator.py:757-771 | the three label columns of a resource read back as one triple per row |
| Labels.FlagOfTier | lab/ml_dataset_generator.py:719-746 | a label column holds the matching tier of its resource |
| Labels.FlagsFromStage | lab/ml_dataset_generator.py:719-746 | the nine columns hold the tiers of the three resources |
| Labels.FlagStep | lab/ml_dataset_generator.py:719-746 | the nine label columns are written and hold the tiers; no other column changes |
| Labels.FlagsKept | lab/ml_dataset_generator.py:749-772 | writing another column keeps the nine labels |
| Labels.TiersRead | lab/ml_dataset_generator.py:757-771 | the label columns read back as the tiers computed from the usage columns |
| Labels.CriticalStep | lab/ml_dataset_generator.py:749-751 | `critical_overload` is 1 exactly when some resource is critical; only that column is written |
| Labels.SeverityStep | lab/ml_dataset_generator.py:753-772 | `overload_severity` is each row's highest tier; only that column is written |
| Labels.FlagSetLiteral | lab/ml_dataset_generator.py:719-772 | the label stage writes the nine labels, `critical_overload` and `overload_severity` |
| Labels.CreateTargetLabels | lab/ml_dataset_generator.py:702-783 | the eleven label columns are written and labelled from the usage columns and thresholds; no other column changes |
| Labels.TiersNested | lab/ml_dataset_generator.py:81-88 | with valid thresholds, critical implies overload, overload implies warning, and the tier is the highest one reached |
| Labels.StrictThreshold | lab/ml_dataset_generator.py:720 | a usage equal to the threshold does not raise the label |
| Labels.AbsentUsageRaisesNothing | lab/ml_dataset_generator.py:723-726 | a missing usage column raises no label and gives tier 0 |
| Labels.SeverityTiers | lab/ml_dataset_generator.py:753-772 | severity is at most 3; it is 3 exactly when some resource is critical, at least 2 when some resource is at least overloaded, and at least 1 when some resource is at least at warning |
| Labels.CriticalMeansSeverityThree | lab/ml_dataset_generator.py:749-772 | severity is 3 exactly when `critical_overload` is 1 |
| Labels.EightyPercentMemory | apps/kube-stress/coleta/sistema_coleta_dados.py:30-39 | with the collection system's defaults, memory at exactly 80% is only a warning, so severity is 1 |
| Labels.LabelledFinite | lab/ml_dataset_generator.py:719-772 | every label cell is a number, never missing |
| Dataset.NonMissing | lab/ml_dataset_generator.py:861-862 | the number of present cells of a row is at most the number of columns |
| Dataset.KeepDense | lab/ml_dataset_generator.py:861-862 | the rows kept are exactly those with enough present cells |
| Dataset.DropSparseRows | lab/ml_dataset_generator.py:861-862 | `dropna(thresh=0.5 * columns)` keeps the columns and exactly the rows with at least that many present cells |
| Dataset.DropSparseRowsInOrder | lab/ml_dataset_generator.py:861-862 | the rows `dropna` keeps appear in their original order |
| Dataset.AllPresentCounted | lab/ml_dataset_generator.py:862 | a row with every cell present counts all columns |
| Dataset.NonePresentCounted | lab/ml_dataset_generator.py:862 | a row with no value counts none |
| Dataset.FullRowKept | lab/ml_dataset_generator.py:861-862 | a row with no missing value is always kept |
| Dataset.EmptyRowKeptIffFewColumns | lab/ml_dataset_generator.py:861-862 | a row whose metric cells are all missing is kept exactly when the frame has so few columns that its key cells reach the threshold |
| Dataset.FillNumeric | lab/ml_dataset_generator.py:865-866 | the missing cells of numeric columns become 0 and every other cell stays as it was |
| Dataset.NoGapLeft | lab/ml_dataset_generator.py:865-866 | after the fill no numeric cell is missing |
| Dataset.FillIdempotent | lab/ml_dataset_generator.py:865-866 | filling twice is the same as filling once |
| Dataset.PresentKept | lab/ml_dataset_generator.py:866 | the fill does not change a present value |
| Dataset.PermutedRows | lab/ml_dataset_generator.py:673 | reordering rows keeps their clock columns and the set of keys |
| Dataset.ClockedAfterTemporal | lab/ml_dataset_generator.py:653-664 | after the temporal stage every row's clock columns agree with its timestamp |
| Dataset.AfterSort | lab/ml_dataset_generator.py:668-783 | after the statistics and label stages the rows stay in (pod, container, timestamp) order with correct clock columns and labels |
| Dataset.UsageKept | lab/ml_dataset_generator.py:719-746 | writing the label columns does not change the usage columns they read |
| Dataset.CreateMlFeatures | lab/ml_dataset_generator.py:464-504 | the step fails with a `KeyError` on `memory_usage_bytes` exactly when the pivoted frame has the RSS and cache columns without it; otherwise the feature frame's keys are the observed pivot keys in (pod, container, timestamp) order, every row's clock columns agree with its timestamp, every row carries the pivoted row with its key on every column no stage writes, its usage percentages and base ratios are computed from that pivoted row, each present metric's rolling mean, variance, difference and change are those of the frame's own metric column, and every row is labelled from its usage columns and the thresholds |
| Dataset.LaterStages | lab/ml_dataset_generator.py:492-500 | after the derived features, the temporal, statistics and label stages give the pivot keys in (pod, container, timestamp) order, each row's clock columns from its timestamp, labels from its usage columns, the pivoted cells and the derived percentages and ratios of the input frame carried row by row through the sort, and rolling statistics of the result's own metric columns |
| Dataset.ShapeKept | lab/ml_dataset_generator.py:492-500 | the temporal, statistics and label stages give the result's rows, their order, the clock columns and the labels |
| Dataset.ValuesKept | lab/ml_dataset_generator.py:492-500 | the temporal, statistics and label stages keep, row by row through the sort, what the derived frame keeps of the pivot, and the statistics read back as those of the result's own metric columns |
| Dataset.UsageFromSamples | lab/ml_dataset_generator.py:476-500 | each row of the feature frame comes from the pivoted row with its key, and the tiers its labels read are those of the memory, CPU and disk percentages computed from that pivoted row |
| Dataset.GenerateDataset | lab/ml_dataset_generator.py:814-874 | a failed connection test stops with `ConnectionError`; an extraction error is passed on; no samples gives an empty frame; a pivoted frame with RSS and cache but no memory usage stops with the `KeyError`; otherwise the result is a frame meeting everything `create_ml_features` promises of the extracted samples (including the percentages, ratios and statistics computed from them), with sparse rows dropped and numeric gaps filled with 0 |
| Dataset.CleanedRows | lab/ml_dataset_generator.py:858-866 | every row of the final dataset is a dense enough row of the feature frame, its key was observed, and the fill leaves its labels untouched |
| Averages.TotalWithin | lab/ml_dataset_generator.py:686 | the sum of n values within [lo, hi] lies within [lo * n, hi * n] |
| Averages.DivideBound | lab/ml_dataset_generator.py:686 | dividing such a sum by n gives a value within [lo, hi] |
| FeatureValues.KeepsBaseAfterDerived | lab/ml_dataset_generator.py:489-490 | after the derived-feature stage every row carries the pivoted row with its key on every column no stage writes, and each usage percentage and base ratio whose inputs the pivot has is present and computed from that pivoted row |
| FeatureValues.KeepsBaseAgree | lab/ml_dataset_generator.py:492-500 | a later stage that writes only temporal, statistics or label columns keeps the pivoted cells, percentages and ratios of every row |
| FeatureValues.KeepsBasePermuted | lab/ml_dataset_generator.py:673 | sorting the rows keeps, row by row, the pivoted cells, percentages and ratios |
| FeatureValues.OwnStatsAfterLabels | lab/ml_dataset_generator.py:668-700 | the rolling statistics computed over the sorted frame are, after the labels, the rolling statistics of the result's own rows and metric columns |
| Exporter.Queries | lab/cadvisor-metric-collector/cadvisor-metrics-exporter.py:136-160 | the eight queries, in the source's order and under its metric names |
| Exporter.RateSelects | lab/cadvisor-metric-collector/cadvisor-metrics-exporter.py:138 | a rate query contains the pod and namespace selector |
| Exporter.QueriesSelectPod | lab/cadvisor-metric-collector/cadvisor-metrics-exporter.py:136-160 | every query selects the requested pod and namespace |
| Exporter.QueryResult | lab/cadvisor-metric-collector/cadvisor-metrics-exporter.py:103-116 | a reply with status `success` gives its result list; a failed request or any other status gives an empty list |
| Exporter.ContainerOf | lab/cadvisor-metric-collector/cadvisor-metrics-exporter.py:173 | the series' `container` label, or `unknown` when it has none |
| Exporter.SeriesPoints | lab/cadvisor-metric-collector/cadvisor-metrics-exporter.py:174-188 | one point per value of a series, carrying its metric name, container, timestamp and parsed value |
| Exporter.Absorb | lab/cadvisor-metric-collector/cadvisor-metrics-exporter.py:176-188 | absorbing a point fails exactly when its value does not parse as a float |
| Exporter.Merge | lab/cadvisor-metric-collector/cadvisor-metrics-exporter.py:165-188 | merging points keeps the dictionary well formed |
| Exporter.MergeConcat | lab/cadvisor-metric-collector/cadvisor-metrics-exporter.py:167-188 | merging two runs of points is merging the first, then the second, and an error stops the merge |
| Exporter.MergeShaped | lab/cadvisor-metric-collector/cadvisor-metrics-exporter.py:180-186 | every record keeps its own timestamp and container and the requested pod and namespace |
| Exporter.MergeFails | lab/cadvisor-metric-collector/cadvisor-metrics-exporter.py:188 | the merge fails exactly when some value does not parse |
| Exporter.MergeKeys | lab/cadvisor-metric-collector/cadvisor-metrics-exporter.py:178-186 | the records are keyed by exactly the (timestamp, container) pairs seen |
| Exporter.Get | lab/cadvisor-metric-collector/cadvisor-metrics-exporter.py:188 | a record's metric is read back exactly when it was stored |
| Exporter.MergeLastWins | lab/cadvisor-metric-collector/cadvisor-metrics-exporter.py:188 | the last value seen for a key and metric is the one stored |
| Exporter.LastValueFound | lab/cadvisor-metric-collector/cadvisor-metrics-exporter.py:176-188 | a stored value exists exactly when some point had that key and metric |
| Exporter.Records | lab/cadvisor-metric-collector/cadvisor-metrics-exporter.py:195 | the records in the dictionary's insertion order |
| Exporter.TimeLessOrder | lab/cadvisor-metric-collector/cadvisor-metrics-exporter.py:198 | ordering by timestamp is a strict order |
| Exporter.Rescale | lab/cadvisor-metric-collector/cadvisor-metrics-exporter.py:201-212 | a unit conversion keeps the number of rows |
| Exporter.RescaleRow | lab/cadvisor-metric-collector/cadvisor-metrics-exporter.py:201-212 | the converted column is the source column divided by the divisor when the source column exists; every other cell and the row's identity are unchanged, and without the source column the row is unchanged |
| Exporter.RescaleColumns | lab/cadvisor-metric-collector/cadvisor-metrics-exporter.py:201-212 | a conversion adds its column exactly when the source column exists and removes none |
| Exporter.UnitColumns | lab/cadvisor-metric-collector/cadvisor-metrics-exporter.py:200-212 | the four unit conversions keep the number of rows |
| Exporter.UnitColumnsRow | lab/cadvisor-metric-collector/cadvisor-metrics-exporter.py:200-212 | the conversions change no column other than the four converted ones |
| Exporter.RescaleLater | lab/cadvisor-metric-collector/cadvisor-metrics-exporter.py:200-212 | a later conversion does not change an earlier converted column |
| Exporter.UnitColumnsValues | lab/cadvisor-metric-collector/cadvisor-metrics-exporter.py:200-212 | memory in MB is bytes / 1048576 and network in KB/s is bytes / 1024, each present exactly when its source column is |
| Exporter.OneMebibyte | lab/cadvisor-metric-collector/cadvisor-metrics-exporter.py:202 | 1048576 bytes are 1 MB |
| Exporter.ByTime | lab/cadvisor-metric-collector/cadvisor-metrics-exporter.py:198 | sorting by timestamp gives a sorted permutation of the records |
| Exporter.UnitsNotQueryNames | lab/cadvisor-metric-collector/cadvisor-metrics-exporter.py:136-212 | no converted column is named like a query |
| Exporter.QueryNamesNotUnits | lab/cadvisor-metric-collector/cadvisor-metrics-exporter.py:136-212 | no query is named like a converted column |
| Exporter.SortedRecords | lab/cadvisor-metric-collector/cadvisor-metrics-exporter.py:195-198 | after the sort every row is one of the records, and every record appears |
| Exporter.TableRow | lab/cadvisor-metric-collector/cadvisor-metrics-exporter.py:195-212 | a row of the table is the sorted record with its units added |
| Exporter.TableRows | lab/cadvisor-metric-collector/cadvisor-metrics-exporter.py:195-212 | the table is in timestamp order and has one row per (timestamp, container) record |
| Exporter.TableUnits | lab/cadvisor-metric-collector/cadvisor-metrics-exporter.py:200-212 | the table's MB and KB/s columns are present exactly when their sources are, and hold the converted values |
| Exporter.MergeErrPrefix | lab/cadvisor-metric-collector/cadvisor-metrics-exporter.py:188 | once the merge fails, later points do not change the outcome |
| Exporter.MergeStep | lab/cadvisor-metric-collector/cadvisor-metrics-exporter.py:176-188 | merging one more point is absorbing it into the current dictionary |
| Exporter.AbsorbOk | lab/cadvisor-metric-collector/cadvisor-metrics-exporter.py:180-188 | a point with a parsed value creates its record when the key is new, and then sets its metric |
| Exporter.SeriesStart | lab/cadvisor-metric-collector/cadvisor-metrics-exporter.py:176 | merging no points changes nothing |
| Exporter.SeriesStep | lab/cadvisor-metric-collector/cadvisor-metrics-exporter.py:176-188 | an unparsable value makes the whole series fail with that value; otherwise the loop's next step sets that metric on the record |
| Exporter.MergeSeries | lab/cadvisor-metric-collector/cadvisor-metrics-exporter.py:172-188 | the loop over one series' values computes the specified merge |
| Exporter.MergeResults | lab/cadvisor-metric-collector/cadvisor-metrics-exporter.py:171-188 | the loop over a query's series computes the specified merge |
| Exporter.MergeQueries | lab/cadvisor-metric-collector/cadvisor-metrics-exporter.py:167-188 | the loop over the queries computes the specified merge of all their points, and a successful merge is a well-formed dictionary |
| Exporter.CollectMetrics | lab/cadvisor-metric-collector/cadvisor-metrics-exporter.py:118-214 | the collection returns the merged records, sorted by time and with units added, or the first parse error |
| Exporter.ResultPointsMetric | lab/cadvisor-metric-collector/cadvisor-metrics-exporter.py:188 | every point of a query carries that query's metric name |
| Exporter.QueryPointsMetric | lab/cadvisor-metric-collector/cadvisor-metrics-exporter.py:167-188 | every point carries a query's metric name |
| Exporter.MergeMetrics | lab/cadvisor-metric-collector/cadvisor-metrics-exporter.py:188 | the records hold only query metrics |
| Exporter.CollectedTable | lab/cadvisor-metric-collector/cadvisor-metrics-exporter.py:165-214 | the collection fails exactly when some value does not parse; otherwise the table is in time order with one row per (timestamp, container) pair seen |
| Exporter.CollectedRow | lab/cadvisor-metric-collector/cadvisor-metrics-exporter.py:165-214 | each row has the requested pod and namespace and comes from some point; a query's column is set exactly when a point of that query had the row's key, and holds the last such value |
| Exporter.CollectedUnits | lab/cadvisor-metric-collector/cadvisor-metrics-exporter.py:200-212 | the collected table's MB and KB/s columns are present exactly when their sources are, and hold the converted values |
| Exporter.ExportToCsv | lab/cadvisor-metric-collector/cadvisor-metrics-exporter.py:216-239 | the export succeeds exactly when the table is not empty and the file was written |
| PromText.Run | apps/cadvisor-metrics-collector/src/pod_metrics_collector.py:182 | the longest prefix whose characters all satisfy the class, as a greedy regular-expression run |
| PromText.RunConcat | apps/cadvisor-metrics-collector/src/pod_metrics_collector.py:182 | a run stops exactly at the first character outside the class |
| PromText.PairAt | apps/cadvisor-metrics-collector/src/pod_metrics_collector.py:224 | a label pair match has a label name as key and a value without `"` |
| PromText.PairAtMatch | apps/cadvisor-metrics-collector/src/pod_metrics_collector.py:224 | the text a match spans is its key, `="`, its value and `"` |
| PromText.Pairs | apps/cadvisor-metrics-collector/src/pod_metrics_collector.py:224-225 | every pair found has a label name and a value without quotes |
| PromText.IndexOfAfter | apps/cadvisor-metrics-collector/src/pod_metrics_collector.py:224 | the first occurrence of a character comes after a prefix that lacks it |
| PromText.PairAtFront | apps/cadvisor-metrics-collector/src/pod_metrics_collector.py:224 | a well-formed pair at the front is matched whole |
| PromText.PairsCons | apps/cadvisor-metrics-collector/src/pod_metrics_collector.py:224-225 | pairs written one after another are found in order |
| PromText.AssignLastWins | apps/cadvisor-metrics-collector/src/pod_metrics_collector.py:227-228 | the label dictionary has exactly the keys found, and a repeated key keeps its last value |
| PromText.ParseLabels | apps/cadvisor-metrics-collector/src/pod_metrics_collector.py:221-230 | the label parse loop computes the specified dictionary |
| PromText.ValueTailRendered | apps/cadvisor-metrics-collector/src/pod_metrics_collector.py:182 | after the labels, blanks, a value without spaces and an optional blank-separated digit timestamp are read back as written |
| PromText.SplitLineLabelled | apps/cadvisor-metrics-collector/src/pod_metrics_collector.py:182 | a labelled line splits into the metric name, the labels between braces and the rest |
| PromText.SplitLinePlain | apps/cadvisor-metrics-collector/src/pod_metrics_collector.py:187 | a line without labels splits into the metric name and the rest |
| PromText.SplitLineRendered | apps/cadvisor-metrics-collector/src/pod_metrics_collector.py:182-188 | a line built from well-formed parts splits back into those parts |
| PromText.ParseRendered | apps/cadvisor-metrics-collector/src/pod_metrics_collector.py:178-215 | a line built from parts parses to that sample: the value parsed as a float (an unparsable value drops the line), the timestamp in milliseconds or the current time, and the labels |
| PromText.SplitLineShape | apps/cadvisor-metrics-collector/src/pod_metrics_collector.py:182-188 | a split line is the name, the optional braces and the rest, reassembled |
| PromText.RunPrefix | apps/cadvisor-metrics-collector/src/pod_metrics_collector.py:182 | a run's prefix consists of class characters |
| PromText.TailGap | apps/cadvisor-metrics-collector/src/pod_metrics_collector.py:182 | the gap before the value is non-empty blank space |
| PromText.TailValue | apps/cadvisor-metrics-collector/src/pod_metrics_collector.py:182 | the value is non-empty and has no blank |
| PromText.TailStamp | apps/cadvisor-metrics-collector/src/pod_metrics_collector.py:182 | a timestamp is preceded by blanks and made of digits |
| PromText.Stamp | apps/cadvisor-metrics-collector/src/pod_metrics_collector.py:204-208 | without a timestamp the sample is stamped now; a timestamp is milliseconds, and one at or past the first instant of year 10000 gives no time, which drops the line |
| PromText.TailConcat | apps/cadvisor-metrics-collector/src/pod_metrics_collector.py:182 | the tail is its gap, value and timestamp reassembled |
| PromText.ValueTailShape | apps/cadvisor-metrics-collector/src/pod_metrics_collector.py:182 | a matched tail is a gap, a value and an optional timestamp, reassembled |
| PromText.ParsedIsRendered | apps/cadvisor-metrics-collector/src/pod_metrics_collector.py:178-215 | every line that parses is the rendering of well-formed parts, so the patterns accept exactly those lines |
| PromText.MatchedIsRendered | apps/cadvisor-metrics-collector/src/pod_metrics_collector.py:182-188 | every matched line is the rendering of its parts |
| PromText.Reassemble | apps/cadvisor-metrics-collector/src/pod_metrics_collector.py:182 | rendering the parts of a line gives back the line |
| PromText.GroupByName | apps/cadvisor-metrics-collector/src/pod_metrics_collector.py:170-174 | grouping by metric name keeps a well-formed dictionary |
| PromText.GroupByNameContents | apps/cadvisor-metrics-collector/src/pod_metrics_collector.py:170-174 | a name is a key exactly when some sample has it, and it maps to that name's samples in order |
| PromText.LineSampleConditions | apps/cadvisor-metrics-collector/src/pod_metrics_collector.py:158-169 | a kept line is non-empty after stripping, is not a comment, mentions the pod, and parses |
| PromText.KeptFromLines | apps/cadvisor-metrics-collector/src/pod_metrics_collector.py:158-174 | every kept sample comes from one of the lines |
| PromText.Kept | apps/cadvisor-metrics-collector/src/pod_metrics_collector.py:158-174 | each line contributes at most one sample |
| PromText.DroppedLine | apps/cadvisor-metrics-collector/src/pod_metrics_collector.py:161-166 | blank lines, comments and lines not mentioning the pod add nothing |
| PromText.KeptStep | apps/cadvisor-metrics-collector/src/pod_metrics_collector.py:158-174 | each line adds its sample, or nothing when it is dropped |
| PromText.GroupStep | apps/cadvisor-metrics-collector/src/pod_metrics_collector.py:172-174 | a new sample is appended under its metric name, creating the entry when the name is new |
| PromText.ParsePrometheusMetrics | apps/cadvisor-metrics-collector/src/pod_metrics_collector.py:154-176 | the parse loop groups by name the samples of the kept lines, in line order |
| PodCollector.LabelOr | apps/cadvisor-metrics-collector/src/pod_metrics_collector.py:238-248 | a label lookup yields the label when present and the default otherwise |
| PodCollector.ContainerName | apps/cadvisor-metrics-collector/src/pod_metrics_collector.py:241 | the container name is the `name` label, else the `container` label, else `unknown` |
| PodCollector.ContainerId | apps/cadvisor-metrics-collector/src/pod_metrics_collector.py:242 | the group key is the `id` label, falling back to the container name |
| PodCollector.AddEntry | apps/cadvisor-metrics-collector/src/pod_metrics_collector.py:244-252 | adding one sample keeps the grouping a well-formed insertion-ordered dict |
| PodCollector.Grouped | apps/cadvisor-metrics-collector/src/pod_metrics_collector.py:232-254 | the grouping of any sample sequence is a well-formed insertion-ordered dict |
| PodCollector.Tagged | apps/cadvisor-metrics-collector/src/pod_metrics_collector.py:236-237 | the samples of one metric are visited in order, each tagged with that metric's name |
| PodCollector.GroupedKeys | apps/cadvisor-metrics-collector/src/pod_metrics_collector.py:240-250 | a group exists exactly for each container key that some sample carries |
| PodCollector.GroupedSnoc | apps/cadvisor-metrics-collector/src/pod_metrics_collector.py:236-252 | grouping a sequence extended by one sample is adding that sample to the grouping of the prefix |
| PodCollector.FirstSampleFixesGroup | apps/cadvisor-metrics-collector/src/pod_metrics_collector.py:244-250 | the container name, pod and namespace of a group are fixed by the first sample with that key and never changed by later ones |
| PodCollector.AddEntryAt | apps/cadvisor-metrics-collector/src/pod_metrics_collector.py:244-252 | adding a sample creates or touches only its own group, whose metric map gains that sample's name |
| PodCollector.GroupedMetricKeys | apps/cadvisor-metrics-collector/src/pod_metrics_collector.py:252 | a group's metric map holds exactly the metric names of the samples carrying that group's key |
| PodCollector.TwoWrites | apps/cadvisor-metrics-collector/src/pod_metrics_collector.py:244-252 | opening the group if new and then writing the metric is one group update |
| PodCollector.LastSampleWins | apps/cadvisor-metrics-collector/src/pod_metrics_collector.py:252 | a sample not followed by another of the same key and metric is the one the group keeps for that metric |
| PodCollector.EntriesStep | apps/cadvisor-metrics-collector/src/pod_metrics_collector.py:236-237 | the samples of the first i+1 metric names are those of the first i followed by the next name's samples |
| PodCollector.InnerStep | apps/cadvisor-metrics-collector/src/pod_metrics_collector.py:237-252 | one turn of the inner loop adds exactly the next sample to the grouping |
| PodCollector.GroupMetricsByContainer | apps/cadvisor-metrics-collector/src/pod_metrics_collector.py:232-254 | the nested loop produces exactly the grouping of all samples, metric by metric in parse order |
| PodCollector.Truncate | apps/cadvisor-metrics-collector/src/pod_metrics_collector.py:283-338 | `int()` on a float: defined exactly for finite values and rounds toward zero by less than one |
| PodCollector.Defaults | apps/cadvisor-metrics-collector/src/pod_metrics_collector.py:16-60 | every record field starts at 0 |
| PodCollector.ApplyFields | apps/cadvisor-metrics-collector/src/pod_metrics_collector.py:283-338 | conversion succeeds iff every present integral metric is finite; then each present metric's field holds its converted value and every other field keeps its previous value, no field is invented |
| PodCollector.RulesAssign | apps/cadvisor-metrics-collector/src/pod_metrics_collector.py:269-338 | the assignments set the listed fields, in source order |
| PodCollector.RulesDistinct | apps/cadvisor-metrics-collector/src/pod_metrics_collector.py:269-338 | no two assignments set the same record field |
| PodCollector.RulesNameFields | apps/cadvisor-metrics-collector/src/pod_metrics_collector.py:16-60 | every assignment sets a field the record declares |
| PodCollector.ApplyOverDefaults | apps/cadvisor-metrics-collector/src/pod_metrics_collector.py:283-338 | over a field map that already holds every assigned field, conversion keeps exactly that key set |
| PodCollector.FromPrometheusMade | apps/cadvisor-metrics-collector/src/pod_metrics_collector.py:256-344 | a record is made iff every integral metric present is finite; it then names the pod, the group's container and namespace and the time, and holds exactly the record's fields |
| PodCollector.FromPrometheus | apps/cadvisor-metrics-collector/src/pod_metrics_collector.py:256-344 | a record made names the requested pod and the current time |
| PodCollector.FromPrometheusFields | apps/cadvisor-metrics-collector/src/pod_metrics_collector.py:269-338 | in a record made, every present metric's field holds its value (truncated toward zero for integer fields) and every other field keeps 0 |
| PodCollector.DefaultsApplied | apps/cadvisor-metrics-collector/src/pod_metrics_collector.py:262-338 | the assignments over the zero defaults succeed iff every integral conversion is of a finite value, and then keep the field set and assign from the metrics |
| PodCollector.RecordsOfContainers | apps/cadvisor-metrics-collector/src/pod_metrics_collector.py:103-108 | at most one record per container, each naming the pod and time and being the record built from one of the containers |
| PodCollector.Records | apps/cadvisor-metrics-collector/src/pod_metrics_collector.py:103-108 | the loop over the containers gives at most one record per container, each naming the pod and the time |
| PodCollector.RecordsStep | apps/cadvisor-metrics-collector/src/pod_metrics_collector.py:103-108 | the records of the first i+1 containers are those of the first i plus the next container's record when one is made |
| PodCollector.PodMetricsFromPrometheus | apps/cadvisor-metrics-collector/src/pod_metrics_collector.py:87-114 | a failed request gives no records; otherwise the records of the grouped containers of the parsed text, in group order |
| PodCollector.Mebibytes | apps/cadvisor-metrics-collector/src/pod_metrics_collector.py:473-491 | a finite byte count becomes mebibytes; NaN and infinities pass through |
| PodCollector.Utilization | apps/cadvisor-metrics-collector/src/pod_metrics_collector.py:481-493 | a zero limit gives 0; otherwise usage over limit as a percentage |
| PodCollector.UtilizationInRange | apps/cadvisor-metrics-collector/src/pod_metrics_collector.py:481-493 | a usage within a positive limit gives a percentage within [0, 100] |
| PodCollector.RowUtilization | apps/cadvisor-metrics-collector/src/pod_metrics_collector.py:478-494 | each row's memory and filesystem percentages are 0 under a zero limit and within [0, 100] under a positive one that bounds the usage |
| PodCollector.MetricsToDataframe | apps/cadvisor-metrics-collector/src/pod_metrics_collector.py:453-507 | one row per record, in order, each holding the record's fields and its computed columns |
| PodCollector.IsPodContainer | apps/cadvisor-metrics-collector/src/pod_metrics_collector.py:346-358 | defined when the info, its spec and the labels are objects; true iff one of the three pod labels equals the pod name |
| PodCollector.CollectPodMetrics | apps/cadvisor-metrics-collector/src/pod_metrics_collector.py:437-451 | `both` gives the Prometheus records then the API records, `prometheus` and `api` only their own, any other method nothing |
| CadvisorClient.SplitLast | apps/cadvisor-metrics-collector/src/cadvisor_client.py:299 | the last part of `str.split(c)` is the text after the last separator, or the whole text when there is none |
| CadvisorClient.AfterLastEnds | apps/cadvisor-metrics-collector/src/cadvisor_client.py:299 | the text after the last separator is a suffix of the text, preceded by the separator unless it is the whole text |
| CadvisorClient.PathName | apps/cadvisor-metrics-collector/src/cadvisor_client.py:297-300 | the path fallback is never empty and holds no `/` |
| CadvisorClient.PathNameSegment | apps/cadvisor-metrics-collector/src/cadvisor_client.py:299-300 | with the outer slashes stripped, an empty path gives `root`; otherwise the name is the segment after the last `/` |
| CadvisorClient.FirstLabel | apps/cadvisor-metrics-collector/src/cadvisor_client.py:287-289 | no label is chosen iff none of the keys holds a truthy value; otherwise the chosen one is the first key, in list order, that does |
| CadvisorClient.ExtractContainerName | apps/cadvisor-metrics-collector/src/cadvisor_client.py:278-306 | a non-dict info gives `unknown`; the first truthy pod, container or `name` label wins, then a truthy `info.name` other than `unknown`, then the path's last segment, then `system` for an empty or `/` path |
| CadvisorClient.DictAt | apps/cadvisor-metrics-collector/src/cadvisor_client.py:311-317 | a nested dict lookup yields the dict when the key holds one and an empty dict otherwise |
| CadvisorClient.ExtractCpuUsage | apps/cadvisor-metrics-collector/src/cadvisor_client.py:308-328 | a missing or non-dict `cpu` gives all zeros and no per-CPU list; otherwise the total, system, user and load-average values are the stored ones when present and 0 when missing, and the per-CPU list is the stored list when `per_cpu_usage` holds a list and empty otherwise |
| CadvisorClient.ExtractMemoryUsage | apps/cadvisor-metrics-collector/src/cadvisor_client.py:330-348 | the seven memory values are always reported, each the source value when present and 0 otherwise, all 0 when `memory` is not a dict |
| CadvisorClient.Dicts | apps/cadvisor-metrics-collector/src/cadvisor_client.py:364 | filtering the list leaves only dict entries |
| CadvisorClient.SummedOverDicts | apps/cadvisor-metrics-collector/src/cadvisor_client.py:363-366 | summing a key over the list with non-dicts skipped equals summing it over the dict entries alone |
| CadvisorClient.SummedStep | apps/cadvisor-metrics-collector/src/cadvisor_client.py:363-366 | one more list entry adds its value for the key when it is a dict and leaves the sum unchanged otherwise |
| CadvisorClient.SummedAdd | apps/cadvisor-metrics-collector/src/cadvisor_client.py:366 | a defined sum plus a numeric value of the next dict gives the extended sum |
| CadvisorClient.SummedFails | apps/cadvisor-metrics-collector/src/cadvisor_client.py:366 | once an addition raises, the sum over the whole list raises |
| CadvisorClient.NetKeysDistinct | apps/cadvisor-metrics-collector/src/cadvisor_client.py:361 | the six network keys are distinct |
| CadvisorClient.AddKeys | apps/cadvisor-metrics-collector/src/cadvisor_client.py:365-366 | adding one interface keeps the set of total keys |
| CadvisorClient.Totals | apps/cadvisor-metrics-collector/src/cadvisor_client.py:363-366 | adding all interfaces keeps the set of total keys |
| CadvisorClient.AddKeysMeaning | apps/cadvisor-metrics-collector/src/cadvisor_client.py:365-366 | one interface adds its value to each of the keys and leaves any other key unchanged; it fails iff some value is not a number |
| CadvisorClient.TotalsAreSums | apps/cadvisor-metrics-collector/src/cadvisor_client.py:361-366 | the totals exist iff every key's sum exists, and each total is then that key's sum over the interfaces |
| CadvisorClient.ZeroTotals | apps/cadvisor-metrics-collector/src/cadvisor_client.py:361 | the totals start at 0 for all six keys |
| CadvisorClient.NetworkTotals | apps/cadvisor-metrics-collector/src/cadvisor_client.py:350-373 | the record has the six keys; when `network` is a dict and the sums exist each total is the sum over dict interfaces only and the count is the whole list's length; otherwise all zeros |
| CadvisorClient.TotalsStep | apps/cadvisor-metrics-collector/src/cadvisor_client.py:363-366 | one loop turn over an interface extends the totals by that interface, dicts only |
| CadvisorClient.AddKeysStep | apps/cadvisor-metrics-collector/src/cadvisor_client.py:365-366 | one turn of the inner loop adds the next key's value |
| CadvisorClient.AddKeysOk | apps/cadvisor-metrics-collector/src/cadvisor_client.py:366 | a numeric value for the next key adds it to that key's running total |
| CadvisorClient.TotalsOk | apps/cadvisor-metrics-collector/src/cadvisor_client.py:363-366 | the running totals keep every key and the next interface is added when it is a dict |
| CadvisorClient.TotalsFail | apps/cadvisor-metrics-collector/src/cadvisor_client.py:366 | an addition that raises makes the whole accumulation raise |
| CadvisorClient.AddKeysFail | apps/cadvisor-metrics-collector/src/cadvisor_client.py:366 | a key whose addition raises makes the interface's addition raise |
| CadvisorClient.NetworkOfTotals | apps/cadvisor-metrics-collector/src/cadvisor_client.py:353-369 | with a dict `network`, the record is the accumulated totals and the list length, or all zeros if an addition raises |
| CadvisorClient.AddInterface | apps/cadvisor-metrics-collector/src/cadvisor_client.py:364-366 | the inner loop adds every key's value of one interface, and reports whether an addition raised |
| CadvisorClient.ExtractNetworkStats | apps/cadvisor-metrics-collector/src/cadvisor_client.py:350-373 | the loops compute exactly the network record described by the sums |
| CadvisorClient.UsagePercentage | apps/cadvisor-metrics-collector/src/cadvisor_client.py:391 | a non-positive capacity gives 0; otherwise usage over capacity as a percentage, within [0, 100] when the usage is within the capacity |
| CadvisorClient.DictsStep | apps/cadvisor-metrics-collector/src/cadvisor_client.py:384-385 | one more list entry adds it to the dict entries only when it is a dict |
| CadvisorClient.ExtractFilesystemStats | apps/cadvisor-metrics-collector/src/cadvisor_client.py:375-396 | the loop computes exactly the filesystem record described by the sums |
| CadvisorClient.FilesystemTotals | apps/cadvisor-metrics-collector/src/cadvisor_client.py:378-392 | the count is at most the list length and counts dict entries; the totals are the sums over dict entries; a non-zero percentage needs a positive capacity |
| CadvisorClient.DictsLength | apps/cadvisor-metrics-collector/src/cadvisor_client.py:384-389 | there are at most as many dict entries as list entries |
| CadvisorClient.ContainersParams | apps/cadvisor-metrics-collector/src/cadvisor_client.py:132 | the `count` parameter is sent iff the count is positive, and then with that value |
| CadvisorClient.SnapshotRules | apps/cadvisor-metrics-collector/src/cadvisor_client.py:412-435 | a container is skipped iff its info is not a dict, its `stats` is not a non-empty list or its last stat is not a dict; a kept one carries the path, the time, the extracted name and the four extracts of the last stat |
| CadvisorClient.Outcomes | apps/cadvisor-metrics-collector/src/cadvisor_client.py:412-435 | one outcome per container, in order, each the outcome of that container |
| CadvisorClient.SnapshotsKept | apps/cadvisor-metrics-collector/src/cadvisor_client.py:411-435 | the snapshot holds at most one entry per container and exactly the entries of the containers not skipped |
| CadvisorClient.CollectSingleSnapshot | apps/cadvisor-metrics-collector/src/cadvisor_client.py:398-440 | an empty response gives no entries, a non-dict one raises, otherwise the entries of the containers not skipped, in order |
| MetricsCatalog.Unique | apps/cadvisor-metrics-collector/src/full_metrics_config.py:202 | `list(set(xs))` holds each value of the input exactly once and nothing else |
| MetricsCatalog.UniqueKeepsAll | apps/cadvisor-metrics-collector/src/full_metrics_config.py:202 | a dedup that drops nothing was given a list without repeats |
| MetricsCatalog.UniqueDropsRepeats | apps/cadvisor-metrics-collector/src/full_metrics_config.py:202 | a list with a repeated value comes out strictly shorter |
| MetricsCatalog.InfixNotDistinct | apps/cadvisor-metrics-collector/src/full_metrics_config.py:191-201 | a repeat inside one extended list is a repeat of the whole concatenation |
| MetricsCatalog.DefaultsRepeatNames | apps/cadvisor-metrics-collector/src/full_metrics_config.py:189-202 | the default lists repeat names, so the deduplicated catalogue is strictly shorter than their concatenation |
| MetricsCatalog.FullMetricsConfig.constructor | apps/cadvisor-metrics-collector/src/full_metrics_config.py:5-187 | every category list that is not supplied gets its default, and a supplied one is kept unchanged |
| MetricsCatalog.FullMetricsConfig.GetAllMetrics | apps/cadvisor-metrics-collector/src/full_metrics_config.py:189-202 | the catalogue holds no duplicates, exactly the names of the ten lists, is no longer than their total, and leaves the lists untouched |
| MetricsCatalog.FirstWord | apps/cadvisor-metrics-collector/src/check_metrics.py:30 | the first whitespace token: the longest space-free prefix, ended by a space or the end of the line |
| MetricsCatalog.LineNameShape | apps/cadvisor-metrics-collector/src/check_metrics.py:19-33 | blank and comment lines name nothing; a name is a non-empty prefix of the stripped line, ending at the first `{` if there is one and at the first whitespace otherwise |
| MetricsCatalog.LineHasName | apps/cadvisor-metrics-collector/src/check_metrics.py:23-33 | a line that is neither blank nor a comment and does not open with `{` names a metric |
| MetricsCatalog.FirstRule | apps/cadvisor-metrics-collector/src/check_metrics.py:36-55 | the chosen rule matches and no earlier rule does; no rule is chosen only when none matches |
| MetricsCatalog.CategoryFirstMatch | apps/cadvisor-metrics-collector/src/check_metrics.py:36-55 | the category is that of the first matching rule in the listed order, and `Other` exactly when none matches |
| MetricsCatalog.NetworkBeforeTcp | apps/cadvisor-metrics-collector/src/check_metrics.py:40-51 | a name with `network` but neither `cpu` nor `memory` is filed under Network even when it holds `tcp` |
| MetricsCatalog.RecordAs | apps/cadvisor-metrics-collector/src/check_metrics.py:32-55 | filing a name keeps the category lists a well-formed insertion-ordered dict |
| MetricsCatalog.Record | apps/cadvisor-metrics-collector/src/check_metrics.py:32-55 | filing a name under its own category keeps the lists well formed |
| MetricsCatalog.LineNames | apps/cadvisor-metrics-collector/src/check_metrics.py:19-30 | one outcome per line, each the line's name if any |
| MetricsCatalog.Catalogue | apps/cadvisor-metrics-collector/src/check_metrics.py:32-55 | filing any sequence of names yields well-formed category lists |
| MetricsCatalog.Collect | apps/cadvisor-metrics-collector/src/check_metrics.py:19-55 | the catalogue of the lines of a body is well formed |
| MetricsCatalog.AvailableMetrics | apps/cadvisor-metrics-collector/src/check_metrics.py:8-61 | the catalogue of a body, or `{}` when the request raised, is well formed |
| MetricsCatalog.CollectStep | apps/cadvisor-metrics-collector/src/check_metrics.py:19-55 | one more line adds its name, if it has one, and leaves the catalogue unchanged otherwise |
| MetricsCatalog.GetAvailableMetrics | apps/cadvisor-metrics-collector/src/check_metrics.py:8-61 | the loop over the lines computes exactly the catalogue of the body, and `{}` when the request raised |
| MetricsCatalog.RecordAsFiled | apps/cadvisor-metrics-collector/src/check_metrics.py:32-55 | filing a name keeps every seen name listed once, under its category, and adds it to the seen names |
| MetricsCatalog.CatalogueFiled | apps/cadvisor-metrics-collector/src/check_metrics.py:32-55 | after filing a sequence of names, every seen name is listed exactly once, under its category |
| MetricsCatalog.RecordSeen | apps/cadvisor-metrics-collector/src/check_metrics.py:32-33 | filing a name adds exactly that name to the seen names |
| MetricsCatalog.CatalogueSeen | apps/cadvisor-metrics-collector/src/check_metrics.py:32-33 | the seen names are exactly the names filed |
| MetricsCatalog.CollectFiled | apps/cadvisor-metrics-collector/src/check_metrics.py:19-55 | each distinct name a line contributes is recorded exactly once, under the category of the first matching rule, and nothing else is recorded |
| MetricsCatalog.LineNamesConcat | apps/cadvisor-metrics-collector/src/check_metrics.py:19-30 | the names of two pieces of a body are the names of each piece in turn |
| MetricsCatalog.SkippedLineIgnored | apps/cadvisor-metrics-collector/src/check_metrics.py:23-24 | a blank or comment line anywhere in the body changes nothing |
| MetricsCatalog.Union | apps/cadvisor-metrics-collector/src/check_metrics.py:72-74 | the available set is the union of the category lists |
| MetricsCatalog.AvailableIsSeen | apps/cadvisor-metrics-collector/src/check_metrics.py:72-74 | the union of the category lists is exactly the set of names seen |
| MetricsCatalog.ComparisonPartitions | apps/cadvisor-metrics-collector/src/check_metrics.py:63-86 | found and missing partition the expected names, found and extra partition the available ones, missing are not available and extra are not expected |
| SearchTree.BoundsMeanElements | apps/http_arvore_binaria/stress_test.py:26-37 | the two ordering bounds speak exactly about the values stored in a subtree |
| SearchTree.InsertedElements | apps/http_arvore_binaria/stress_test.py:26-37 | an insert adds exactly the one value to the stored values |
| SearchTree.InsertedSize | apps/http_arvore_binaria/stress_test.py:26-37 | an insert adds exactly one node |
| SearchTree.InsertedBounds | apps/http_arvore_binaria/stress_test.py:26-37 | an insert keeps any bound that the new value meets |
| SearchTree.InsertedOrdered | apps/http_arvore_binaria/stress_test.py:26-37 | an insert keeps "left subtree smaller than the node, right subtree equal or greater" |
| SearchTree.FoundIffStored | apps/http_arvore_binaria/stress_test.py:39-47 | under the ordering, the search finds a value iff it is stored |
| SearchTree.SizeCountsElements | apps/http_arvore_binaria/stress_test.py:49-56 | the node count is the number of stored values, repeats included |
| SearchTree.InsertedFound | apps/http_arvore_binaria/stress_test.py:26-47 | in an ordered tree an inserted value is found afterwards |
| HttpTree.TreeNode.constructor | apps/http_arvore_binaria/stress_test.py:18-24 | a new node holds the value, no children and a payload of the requested kilobytes |
| HttpTree.TreeNode.Insert | apps/http_arvore_binaria/stress_test.py:26-37 | the linked nodes afterwards denote the value tree with the new value attached by the less-left, else-right rule; only new nodes join the footprint |
| HttpTree.TreeNode.Search | apps/http_arvore_binaria/stress_test.py:39-47 | the recursive search is the search walk over the denoted tree, and under the ordering it holds iff the value is stored |
| HttpTree.TreeNode.CountNodes | apps/http_arvore_binaria/stress_test.py:49-56 | the count is the number of nodes of the denoted tree, which is the number of stored values |
| HttpTree.InsertThenSearch | apps/http_arvore_binaria/stress_test.py:26-56 | after an insert the ordering still holds, the stored values gain exactly the new one, the search finds it and the count grows by exactly one |
| HttpTree.StressTestManager.constructor | apps/http_arvore_binaria/stress_test.py:61-71 | no tree, no logs, not running, no stop request and the default configuration of 100 MB, 60 s and 5 s |
| HttpTree.StressTestManager.AddLog | apps/http_arvore_binaria/stress_test.py:78-88 | one log entry with the time, operation, memory reading and message is appended and nothing else changes |
| HttpTree.StressTestManager.BeginStressTest | apps/http_arvore_binaria/stress_test.py:154-171 | a running test refuses with its message and changes nothing; otherwise there is no refusal, the manager is running, the stop flag, logs and tree are reset, the new configuration is stored and the start entry is the only log |
| HttpTree.StressTestManager.FinishStressTest | apps/http_arvore_binaria/stress_test.py:190-195 | the finally block clears the running flag and keeps the tree, logs and configuration, and the run answers success with "Teste concluído" |
| HttpTree.StressTestManager.Stop | apps/http_arvore_binaria/stress_test.py:197-200 | stopping without a running test is a 400 that changes nothing; otherwise the stop flag is set and the stop entry is logged |
| HttpTree.StressTestManager.Clear | apps/http_arvore_binaria/stress_test.py:202-206 | clearing while running is a 400 that keeps the tree and logs; otherwise the tree is dropped and the clear entry is logged |
| HttpTree.StressTestManager.LogsView | apps/http_arvore_binaria/stress_test.py:309-323 | the total is the number of entries; the view is a suffix of the log, all of it for no limit or 0, the last k entries for k > 0 and all but the first k for -k |
| HttpTree.SliceFrom | apps/http_arvore_binaria/stress_test.py:318 | Python's `s[k:]` for negative and non-negative k, clamped to the sequence |
| HttpTree.StartStressAccepts | apps/http_arvore_binaria/stress_test.py:232-261 | the request is accepted iff one of the two sizes is given, a percentage lies in [1, 95], the resulting size in [10, 10000], the duration in [5, 3600] and the interval in [1, 60]; an accepted size is the floor of the percentage of total memory or the given size |
| IterativeTree.DescAfter | apps/arvore_binaria/memory_stress.py:32-53 | every node reachable from a position lies at or after it in the node list, since links only point forward |
| IterativeTree.AttachPoint | apps/arvore_binaria/memory_stress.py:42-53 | the walk ends at a node reachable from its start whose child on the new value's side is empty |
| IterativeTree.AttachedForward | apps/arvore_binaria/memory_stress.py:34-53 | attaching a node keeps every link pointing forward |
| IterativeTree.AttachedLinks | apps/arvore_binaria/memory_stress.py:34-53 | the new node is appended as a leaf; every existing node keeps its value and payload, a link changes only from empty to the new node, and only at the attach point |
| IterativeTree.AttachPointBelow | apps/arvore_binaria/memory_stress.py:42-53 | the attach point is reachable from where the walk starts |
| IterativeTree.DescGrows | apps/arvore_binaria/memory_stress.py:42-53 | after attaching, a subtree gains the new node exactly when it contains the attach point |
| IterativeTree.TreeUnchanged | apps/arvore_binaria/memory_stress.py:42-53 | a subtree that does not contain the attach point denotes the same tree afterwards |
| IterativeTree.TreeAlongWalk | apps/arvore_binaria/memory_stress.py:42-53 | each subtree along the walk denotes its old tree with the value inserted by the less-left, else-right rule |
| IterativeTree.AttachedDisjoint | apps/arvore_binaria/memory_stress.py:42-53 | attaching a node keeps the two subtrees of every node apart, so the links still form a tree |
| IterativeTree.AttachedTree | apps/arvore_binaria/memory_stress.py:32-53 | the nodes after attaching still form a tree, and it is the old tree with the value inserted as the recursive rule does |
| IterativeTree.AttachLeaf | apps/arvore_binaria/memory_stress.py:32-53 | the store steps of the iterative insert give the store with the new leaf appended and linked at the missing child found by walking from the root |
| IterativeTree.Range | apps/arvore_binaria/memory_stress.py:69 | `list(range(n))`: n values from 0 upward, none for a non-positive n |
| IterativeTree.InsertedAllElements | apps/arvore_binaria/memory_stress.py:74-75 | inserting a sequence adds exactly its values |
| IterativeTree.InsertedAllSize | apps/arvore_binaria/memory_stress.py:74-75 | inserting a sequence adds exactly as many nodes as it has values |
| IterativeTree.RangeOnce | apps/arvore_binaria/memory_stress.py:69 | `range(n)` holds each of 0 to n-1 exactly once and nothing else |
| IterativeTree.BinaryTreeMemoryStress.constructor | apps/arvore_binaria/memory_stress.py:24-30 | the target, node size in bytes and duration are stored; there is no root, no node and an empty node list |
| IterativeTree.BinaryTreeMemoryStress.InsertIterative | apps/arvore_binaria/memory_stress.py:32-53 | the node list gains the new leaf and the only link changed is the empty one where it is attached; the tree it denotes is the recursive insert of the value, and the count stays equal to the list length |
| IterativeTree.BinaryTreeMemoryStress.CalculateNodesNeeded | apps/arvore_binaria/memory_stress.py:55-59 | the result is the floor of target bytes over node bytes; a zero node size raises |
| IterativeTree.BinaryTreeMemoryStress.BuildTree | apps/arvore_binaria/memory_stress.py:61-88 | with a positive node size every shuffled value is inserted in order, the count grows by their number and the stored values gain exactly them; from an empty tree each of 0 to n-1 is stored exactly once; a zero node size raises before anything changes |
| IterativeTree.BinaryTreeMemoryStress.TraverseTreeIterative | apps/arvore_binaria/memory_stress.py:90-111 | the stack-based walk counts every node of the tree once, which is the node count, and 0 for an empty tree |
| IterativeTree.BinaryTreeMemoryStress.AccessRandomNodes | apps/arvore_binaria/memory_stress.py:113-129 | no nodes give 0; otherwise the number of sampled nodes, min(sample size, nodes), when each payload exceeds 10 bytes and 0 otherwise |
| IterativeTree.WalkToParent | apps/arvore_binaria/memory_stress.py:42-53 | the `while True` walk stops exactly at the attach point |
| IterativeTree.AttachPointPrefix | apps/arvore_binaria/memory_stress.py:42-53 | appending an unlinked leaf does not move the attach point of the nodes before it |
| IterativeTree.InsertedAllStep | apps/arvore_binaria/memory_stress.py:74-75 | inserting the first i+1 values is inserting the first i and then the next |
| IterativeTree.InsertedAllSnoc | apps/arvore_binaria/memory_stress.py:74-75 | inserting a sequence and then one more value is inserting the extended sequence |
| IterativeTree.SizeAtNode | apps/arvore_binaria/memory_stress.py:98-109 | a node's subtree counts itself and the nodes of its two subtrees |
| IterativeTree.StackPush | apps/arvore_binaria/memory_stress.py:106-109 | pushing a node adds the size of its subtree to the nodes still to be counted |
| MemoryLedger.PopCount | apps/kube-stress/stress/memory_stress_generator.py:65-68 | the loop pops at most every block |
| MemoryLedger.TotalMbPrefix | apps/kube-stress/stress/memory_stress_generator.py:67-71 | dropping blocks from the end never raises the megabytes held |
| MemoryLedger.TotalMbAppend | apps/kube-stress/stress/memory_stress_generator.py:53-67 | an appended block adds its length in whole MiB |
| MemoryLedger.PopCountStops | apps/kube-stress/stress/memory_stress_generator.py:65-68 | the pops stop once the released megabytes reach the request or the list is empty, and not one pop earlier |
| MemoryLedger.ReleaseMayOvershoot | apps/kube-stress/stress/memory_stress_generator.py:65-68 | releasing 10 MB from one 100 MB block pops it and releases 100 MB |
| MemoryLedger.MemoryStressGenerator.constructor | apps/kube-stress/stress/memory_stress_generator.py:28-38 | the cap is stored, no blocks, not running, and the counter is 0, which is the megabytes held |
| MemoryLedger.MemoryStressGenerator.AllocateMemory | apps/kube-stress/stress/memory_stress_generator.py:42-60 | with memory available one block of the requested MiB is appended and counted; otherwise it fails and nothing changes; the counter stays the megabytes held |
| MemoryLedger.MemoryStressGenerator.ReleaseMemory | apps/kube-stress/stress/memory_stress_generator.py:62-72 | blocks are popped from the end until the released total reaches the request or none remain; the counter drops by the released amount, not below 0, and stays the megabytes held |
| MemoryLedger.MemoryStressGenerator.ReleaseAllMemory | apps/kube-stress/stress/memory_stress_generator.py:74-78 | no blocks are left and the counter is 0 |
| MemoryLedger.AllocatedAll | apps/kube-stress/stress/memory_stress_generator.py:174-182 | when every allocation succeeds the scenario appends exactly count blocks and the megabytes held grow by count times the step |
| MemoryLedger.StressScenarioExecutor.constructor | apps/kube-stress/stress/memory_stress_generator.py:159-162 | the executor drives the given memory generator |
| MemoryLedger.StressScenarioExecutor.AllocateUntil | apps/kube-stress/stress/memory_stress_generator.py:174-182 | the loop on the counter makes ⌈max/step⌉ allocations of the step, none for a non-positive max, and the ledger keeps its invariant |
| MemoryLedger.StressScenarioExecutor.ScenarioGradualIncrease | apps/kube-stress/stress/memory_stress_generator.py:164-184 | the gradual scenario makes ⌈max/step⌉ allocations of the step |
| MemoryLedger.StressScenarioExecutor.ScenarioMemoryLeakSimulation | apps/kube-stress/stress/memory_stress_generator.py:285-312 | the leak scenario counts ⌈max/leak rate⌉ iterations, each one allocation of the leak rate |
| IntArith.CeilDiv | apps/kube-stress/stress/memory_stress_generator.py:174-182 | the number of steps of a given size needed to reach a bound, 0 for a non-positive bound |
| IntArith.CeilDivLeast | apps/kube-stress/stress/memory_stress_generator.py:174-182 | the ceiling is the only count whose last step reaches the bound and whose previous one does not |
| Primes.Isqrt | apps/primos_0.1/app.py:35 | `int(math.sqrt(n))`: the whole square root |
| Primes.IsqrtBound | apps/primos_0.1/app.py:35-39 | a number is below the whole square root iff its square is at most n |
| Primes.SmallestDivisorFrom | apps/primos_0.1/app.py:35-39 | the first divisor from d up divides n and no smaller candidate does |
| Primes.SmallestDivisorPrime | apps/primos_0.1/app.py:26-41 | the smallest divisor above 1 is prime |
| Primes.SmallDivisor | apps/primos_0.1/app.py:35-41 | a composite number has a prime divisor whose square is at most the number, so trial division up to the square root suffices |
| Primes.FactorialMultiple | apps/primos_0.1/app.py:43-55 | m! is a multiple of every number from 1 to m |
| Primes.PrimeAbove | apps/primos_0.1/app.py:43-55 | there is a prime above every number, so the search loop always finds the next prime |
| Primes.IsPrime | apps/primos_0.1/app.py:26-41 | the result is true exactly for primes |
| Primes.GeneratePrimes | apps/primos_0.1/app.py:43-55 | exactly `count` values (none for count ≤ 0), strictly increasing, all prime, and every prime up to the last one is listed |
| Primes.FirstPrimesNoneSkipped | apps/primos_0.1/app.py:43-55 | every prime below a listed prime is listed before it |
| Primes.QueryCountErrorAsWritten | apps/primos_0.1/app.py:95-111 | as written the query endpoint accepts exactly the counts in 1 to 100000 |
| Primes.QueryCountError | apps/primos_0.1/app.py:95-111 | with the announced limit the query endpoint accepts exactly the counts in 1 to 10000, and a missing count gets the required-parameter message |
| Primes.PathCountError | apps/primos_0.1/app.py:154-162 | the path endpoint accepts exactly the counts in 1 to 10000 |
| Primes.QueryLimitDisagrees | apps/primos_0.1/app.py:108-162 | as written a count of 50000 is served by the query endpoint and refused by the path endpoint |
| Primes.EndpointsAgree | apps/primos_0.1/app.py:95-162 | with the announced limit both endpoints accept and refuse the same counts with the same messages |
| Primes.GetPrimes | apps/primos_0.1/app.py:83-138 | a count failing the check as written (missing, not positive, or above 100000) is a 400 with that check's message; otherwise a 200 listing the first `count` primes with none skipped, and the reported count is the list's length |
| Primes.GetPrimesByPath | apps/primos_0.1/app.py:145-181 | the same for the path endpoint with its own count check |
| NumberParsing.ParseFloatDigits | apps/cadvisor-metrics-collector/src/pod_metrics_collector.py:200 | `float()` of a non-empty digit string is its decimal value |
| NumberParsing.ParseFloatOfNat | apps/cadvisor-metrics-collector/src/pod_metrics_collector.py:200 | `float()` reads back the decimal text of every natural number |
| NumberParsing.NaNLiteral | lab/ml_dataset_generator.py:439 | `float('NaN')` is NaN |
| Numbers.Clip | lab/ml_dataset_generator.py:513-524 | `clip(lo, hi)` keeps NaN, puts every other value within the bounds and leaves a value already within them unchanged |
| Numbers.Div | lab/ml_dataset_generator.py:510-545 | column division: finite operands give their quotient, division by zero gives an infinity or NaN for 0/0, and NaN propagates |
| Numbers.Add | lab/ml_dataset_generator.py:536-541 | addition of column values: finite operands add, NaN propagates and opposite infinities give NaN |
| Strings.Split | apps/cadvisor-metrics-collector/src/pod_metrics_collector.py:158 | `str.split(c)` always returns at least one part |
| Strings.SplitPieces | apps/cadvisor-metrics-collector/src/pod_metrics_collector.py:158 | no part of `str.split(c)` holds the separator |
| Strings.SplitNoChar | apps/cadvisor-metrics-collector/src/pod_metrics_collector.py:158 | a text without the separator splits into itself alone |
| Strings.StripLeft | apps/cadvisor-metrics-collector/src/pod_metrics_collector.py:159 | `lstrip()` removes exactly the leading whitespace |
| Strings.StripRight | apps/cadvisor-metrics-collector/src/pod_metrics_collector.py:159 | `rstrip()` removes exactly the trailing whitespace |
| Strings.Strip | apps/cadvisor-metrics-collector/src/pod_metrics_collector.py:159 | no whitespace remains at either end after `strip()` |
| JsonValues.Lookup | apps/cadvisor-metrics-collector/src/cadvisor_client.py:283-289 | a key lookup yields a value iff the key is present, and then a value stored under it |
| JsonValues.Get | apps/cadvisor-metrics-collector/src/cadvisor_client.py:311-345 | `dict.get(k, default)` gives the default exactly when the key is missing and the stored value otherwise |
| OrderedDicts.Put | apps/cadvisor-metrics-collector/src/pod_metrics_collector.py:244-252 | dict assignment: the key maps to the new value, a new key joins the end of the insertion order and an existing key keeps its place |
| OrderedDicts.PutPut | apps/cadvisor-metrics-collector/src/pod_metrics_collector.py:252 | a second assignment to a key replaces the first |

## Left out

- HTTP and network clients are not modelled. This covers the Prometheus connector, every `requests`/`session.get` call, the cAdvisor fetches and the `/metrics` scrape. Their answers are parameters: a response, or `None` for a request that raised.
- `get_pod_metrics_from_api` and `_create_pod_metrics_from_api` are not modelled. They are a REST fetch plus record filling. `PodCollector.CollectPodMetrics` takes their records as a parameter, and only the pod test `_is_pod_container` is modelled.
- Flask routing, JSON rendering, the `/status` route and the 500 paths for unexpected exceptions are not modelled. Only the validation branches and the state changes behind the routes are.
- Threads and locks are not modelled. The stress test's build and search routines, `time.sleep`, the wall clock and psutil readings are left out or are parameters. This includes the time stamps, memory readings, durations and total system memory.
- Randomness is a parameter. This covers the shuffled values of `build_tree`, the sample of `access_random_nodes` and the random fill of allocated blocks.
- Logging, `print`, CSV/Parquet/JSON writes and argparse `main` blocks are not modelled. `export_to_csv` is modelled only up to its empty-frame guard.
- Payload bytes are not modelled. A node's or block's payload is represented by its length.
- Nodes of the iterative tree are positions in the node list, not shared references. Aliasing between `all_nodes` and the links is represented by that indexing.
- The other stress scenarios are not modelled: spike, random, stress test and oscillating load. `maintain_pressure`, `run` and the CPU stress generator are left out too. They are driven by time and threads.
- Floating point is not modelled exactly. Cells are extended reals, so there is no rounding, no signed zero and no IEEE overflow. Unit conversions and percentages are exact quotients.
- Rolling standard deviation is modelled as the rolling sample variance. The square root is not modelled, and only presence and NaN-ness depend on it.
- `pct_change` is modelled without pandas' default forward fill of missing values.
- `float()` is modelled on decimal text, optional sign and exponent, `inf`/`nan` and surrounding ASCII whitespace. Underscores, Unicode digits and Unicode whitespace are not modelled.
- Strings.IsSpace: whitespace is the ASCII set: space, tab, newline, carriage return, vertical tab and form feed. Python's `str.strip`, `str.split` and the regex class `\s` also accept Unicode whitespace.
- Strings.Strip: strips ASCII whitespace only, as Strings.IsSpace does.
- Strings.StripLeft: strips ASCII whitespace only, as Strings.IsSpace does.
- Strings.StripRight: strips ASCII whitespace only, as Strings.IsSpace does.
- MetricsCatalog.FirstWord: ends at ASCII whitespace only, as Strings.IsSpace does.
- PromText.Run: the character classes `\s`, `[^\s]` and `\d` of the line patterns are ASCII classes. Python's `re` accepts Unicode whitespace and digits there.
- Strings.IsDigit: only the ASCII digits. The regex class `\d` and `int()` also accept other Unicode decimal digits.
- PromText.Stamp: the year-10000 bound is the one for UTC. `datetime.fromtimestamp` works in local time and shifts the bound by the zone's offset. Its rounding to microseconds is not modelled either.
- JsonValues.Lookup: object keys are taken as distinct, as cAdvisor sends them. For a repeated key the model returns the first value, while Python's `json` keeps the last.
- Temporal.Hour: local time is a fixed offset from UTC. Daylight-saving changes are not modelled, and the same holds for Temporal.Minute and Temporal.DayOfWeek.
- Exporter.KeyOf: a sample is keyed by its raw timestamp, while the source keys it by the naive local `datetime.fromtimestamp`. When clocks fall back, two instants an hour apart have the same local time, and the source merges their rows.
- Sorting.InsertionSort: rows with equal sort keys come out in one fixed order, their input order. pandas' default sort does not promise that order.
- `list(set(xs))` has an order Python leaves to the set. `MetricsCatalog.Unique` fixes one order, and the contracts state only membership, absence of repeats and length.
- The `/primes/<int:count>` route is modelled on any integer. Flask's `int` converter never routes a negative count, so only 0 reaches the `count <= 0` branch in the service.
- Primes.Isqrt: the whole square root is exact, whereas `int(math.sqrt(n))` rounds through a float and can be off for numbers beyond 2^52.
- MemoryLedger.MemoryStressGenerator.AllocateMemory: sizes are natural numbers. A negative size, which makes `bytearray` raise `ValueError`, is not modelled.
- MemoryLedger.StressScenarioExecutor.AllocateUntil requires a positive step. A zero step makes the scenario loop forever, and a negative one raises in `allocate_memory`.
- MemoryLedger.StressScenarioExecutor.ScenarioGradualIncrease: has the same positive-step requirement as `AllocateUntil`.
- MemoryLedger.StressScenarioExecutor.ScenarioMemoryLeakSimulation: has the same positive-step requirement as `AllocateUntil`.
- IterativeTree.BinaryTreeMemoryStress.constructor: the node size in kilobytes is a natural number. A negative size makes `bytearray` raise on the first insert, and that is not modelled.
- IterativeTree.BinaryTreeMemoryStress.AccessRandomNodes: the sample size is a natural number. A negative size makes `random.sample` raise, and that is not modelled.
- HttpTree.TreeNode.constructor: the payload size is a natural number. A negative size makes `bytearray` raise, and that is not modelled.
- HttpTree.StartStressAccepts: the total system memory is taken as non-negative, as psutil reports it.

## Findings

| source | as written | input that shows it | evidently intended | confidence | as-written member | corrected member |
|---|---|---|---|---|---|---|
| lab/ml_dataset_generator.py:531-533 | RSS and cache shares are guarded by `memory_rss` and `memory_cache`, then read `memory_usage_bytes`; the collection system repeats this at apps/kube-stress/coleta/sistema_coleta_dados.py:348-350 | a frame with `memory_rss` and `memory_cache` but no `memory_usage_bytes` column (a `KeyError`) | the guard also requires `memory_usage_bytes` | not executed | `DerivedFeatures.RssSharesAsWritten` | `DerivedFeatures.BaseRatios` |
| apps/primos_0.1/app.py:108-111 | `/primes` refuses only counts above 100000, while its message announces a limit of 10.000 and `/primes/<count>` refuses counts above 10000 | `count=50000` is served by `/primes` and refused by `/primes/50000` | both endpoints refuse counts above 10000 | not executed | `Primes.QueryCountErrorAsWritten` | `Primes.QueryCountError` |
