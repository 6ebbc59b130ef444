# Capacity estimation and benchmark runs, verified

This project models the two halves of the observability cost evaluation repository and proves what they
promise.

The **advisor** (`obs-advisor`) estimates the CPU, memory and disk an observability backend needs. It groups
measured runs by retention period, fits a log-log least-squares exponent to the upper medians of the groups,
clamps it, rescales every run to the wanted period by a power law, sorts the rescaled points by load in place
and reads a piecewise-linear curve with linear tails. It validates itself by leaving one run out at a time,
turns the estimate into error bands and a monthly cost, and draws the same curve a second time in the browser.

The **benchmark** (`obs-bench`) produces those runs: it validates a batch of experiments, runs each through
ordered stages, waits for query APIs with a growing backoff, sends log lines under a per-second quota, deletes
namespaces with a forced finalisation, and keeps the results in a table it migrates when needed.

The files follow the program:

- `Collections.dfy`, `Sorting.dfy`, `PowerLaw.dfy`: sequences and permutations; ordering by a key, including
  what an unstable sort leaves open; the laws of logarithm and power.
- `LeastSquares.dfy`, `Interpolation.dfy`, `LeavingOut.dfy`: the fitted line, the load curve, and what leaving
  points out does to it.
- `CapacityModel.dfy`, `CapacityTheorems.dfy`, `Holdout.dfy`, `Report.dfy`: the estimator, what it promises,
  leave-one-out validation, bands and cost.
- `BrowserChart.dfy`, `ChartAgreement.dfy`, `TotalView.dfy`: the browser's interpolant and charts, when they
  agree with the server, and its cheapest combination.
- `Instruments.dfy`, `Storage.dfy`, `Experiment.dfy`: instrument names, the measurement table, experiments and
  batches.
- `Pipeline.dfy`: from a batch file to the advisor's answer.
- `QueryWait.dfy`, `SendLoop.dfy`, `NamespaceDeletion.dfy`: the three timed loops.

Numbers are exact reals. `log` and `pow` are parameters, known only through `MathLib.Lawful`: log is strictly
increasing on positive numbers and turns products into sums, and a power of a positive number is positive with
logarithm a times log b. The remaining laws (a power of one is one, a power of a product, monotonicity) are
derived. Loops and in-place sorts are methods over arrays or reassigned values; each is tied to a function, and
the theorems are about that function. The order of equal loads after `sort.Slice`, the order of map iteration,
every API answer, every failure and every delay are left open, so the theorems hold for all of them.

Some findings:

- `sort.Slice` is not stable, so with equal loads the estimate may depend on the order of the rows.
  A batch that repeats an entry already leaves the answer open (`RepeatedEntryLeavesAnswerOpen`).
  `EstimateDeterminedIff` gives the exact condition on the rows, and `ReproducedIff` the exact condition under
  which a measurement is always returned.
- The fallback for a zero variance can never be taken (`VrFallbackUnreachable`), nor can the browser's closing
  `return 0` (`Interp`).
- The browser divides by the width of an end segment without a guard. `Interp` states exactly when that is a
  division by zero; in every other case, duplicates included, it agrees with the server. `VerticalEnd` gives
  points for which the browser draws zero and the server answers the measured value.
- The chart leaves out calibration runs longer than four hours, and the server does not. `ChartAgreesIff` says
  exactly when they agree, repeated loads included; `CalibrationRunMissed`, `CalibrationRepeatsLoad` and
  `CalibrationFlattensEnd` show the three ways in which they differ.
- A resource that was never measured is validated with a perfect score of zero (`UnmeasuredScoresZero`).
- A run shorter than a second is stored with a duration of zero seconds; the period of its disk usage then falls
  back to the configured retention and stays positive (`SavedRecordsMeasured`).

## Model

| member | source | states |
|---|---|---|
| Sorting.SortInPlace | obs-advisor/server/capacitymodel/model.go:68-97 | the slice ends up as some ordering of its elements by key; when equal keys mean equal elements it is the one such ordering |
| Sorting.SortingUnique | obs-advisor/server/capacitymodel/model.go:68 | an unstable sort has a single outcome when elements with equal keys are equal |
| Sorting.SortedStable | obs-advisor/charts.html:94 | elements with equal keys keep their order, as the browser's sort promises |
| Interpolation.Interpolate | obs-advisor/server/capacitymodel/model.go:64-83 | the caller's points are reordered by load, not changed, and the result is the curve through the reordered points |
| Interpolation.Bracketing | obs-advisor/server/capacitymodel/model.go:78-90 | strictly inside the measured range, duplicates allowed, the scan finds neighbours with different loads around x, and the curve passes between their values |
| Interpolation.CurveAtMeasuredLoad | obs-advisor/server/capacitymodel/model.go:72-90 | at every measured load, duplicates allowed, the curve takes a value measured at that load |
| Interpolation.OrderIndependentIff | obs-advisor/server/capacitymodel/model.go:68-82 | the result is the same for every outcome of the unstable sort exactly when no load carries two different values |
| Interpolation.SlopeSandwich | obs-advisor/server/capacitymodel/model.go:64-91 | bounds on the segment slopes bound the rise of the curve between any two arguments, tails included |
| Interpolation.LipschitzIff | obs-advisor/server/capacitymodel/model.go:64-91 | the largest absolute segment slope is the least Lipschitz constant of the curve over all reals |
| Interpolation.MonotoneIff | obs-advisor/server/capacitymodel/model.go:64-91 | the curve never falls over the reals exactly when the measured values never fall; loads may repeat with equal values |
| Interpolation.CurveIsLineIff | obs-advisor/server/capacitymodel/model.go:64-91 | the curve is a given line over all reals exactly when the measured points lie on it |
| LeavingOut.ClampedCurveIff | obs-advisor/server/capacitymodel/model.go:64-91 | leaving positive points out changes the clamped curve nowhere exactly when they lie on the curve of those kept and that curve is flat beyond every end load that was measured twice |
| LeastSquares.CovariationPairwise | obs-advisor/server/capacitymodel/model.go:163-167 | n times the covariation (and the variation) is the sum over all pairs of the products of differences |
| LeastSquares.SlopeBetweenPairSlopes | obs-advisor/server/capacitymodel/model.go:163-174 | the fitted slope lies within every range that holds all pairwise slopes |
| LeastSquares.FittedLineIsOptimal | obs-advisor/server/capacitymodel/model.go:155-174 | no line has a smaller sum of squared residuals than the fitted one, and only the fitted one attains it |
| LeastSquares.SlopeOfLine | obs-advisor/server/capacitymodel/model.go:163-174 | points on a line are fitted by exactly its slope |
| CapacityModel.MedianInPlace | obs-advisor/server/capacitymodel/model.go:93-99 | the result is the upper median of the values given, which are left sorted |
| CapacityModel.GroupByPeriod | obs-advisor/server/capacitymodel/model.go:121-128 | the map has a key for every period with a positive measurement and holds, in order, the values measured over it |
| CapacityModel.CollectLogPoints | obs-advisor/server/capacitymodel/model.go:140-147 | whatever order the map is visited in, the points are those of the periods, up to order |
| CapacityModel.Sums | obs-advisor/server/capacitymodel/model.go:155-167 | the loops compute the covariation and variation about the means |
| CapacityModel.EstimateAlphaByRetention | obs-advisor/server/capacitymodel/model.go:120-184 | for every map iteration order the result is the exponent Alpha of the rows |
| CapacityModel.EstimateResource | obs-advisor/server/capacitymodel/model.go:186-198 | the result is the clamped curve through some ordering of the rescaled rows, and Estimate when points with equal loads are equal |
| CapacityTheorems.VrFallbackUnreachable | obs-advisor/server/capacitymodel/model.go:142-173 | two or more points have distinct abscissae and a positive variation |
| CapacityTheorems.AlphaIsBestExponent | obs-advisor/server/capacitymodel/model.go:140-183 | the exponent is the slope of the one line that no other line improves on, or the nearest number in 0.6..1.4 (disk), 0..0.8 (memory) or 0..0.6 (CPU) |
| CapacityTheorems.AlphaBetweenElasticities | obs-advisor/server/capacitymodel/model.go:140-183 | the exponent lies between the least and greatest elasticity of two periods, as far as the resource's interval reaches |
| CapacityTheorems.PowerLawRecovered | obs-advisor/server/capacitymodel/model.go:140-183 | medians that follow c times period to the a give the exponent a when it lies in 0.6..1.4 (disk), 0..0.8 (memory) or 0..0.6 (CPU), and otherwise the nearer end |
| CapacityTheorems.CpuPowerLaw | obs-advisor/server/capacitymodel/model.go:104-183 | rows whose CPU follows c times retention to the a, over two or more retentions, give the exponent a or the nearest in 0..0.6 |
| CapacityTheorems.MemoryPowerLaw | obs-advisor/server/capacitymodel/model.go:104-183 | likewise for peak memory, in 0..0.8 |
| CapacityTheorems.DiskPowerLaw | obs-advisor/server/capacitymodel/model.go:104-183 | likewise for disk over the days the runs lasted, in 0.6..1.4 |
| CapacityTheorems.ExponentOfOnePeriod | obs-advisor/server/capacitymodel/model.go:129-138 | without two different periods the exponent is 0.15 for CPU, 0.25 for memory and 1 for disk |
| CapacityTheorems.ExponentUnfitted | obs-advisor/server/capacitymodel/model.go:149-154 | with different retentions of which no two are positive the exponent is 0.2 for CPU and memory and 1 for disk |
| CapacityTheorems.RetentionFactorsOut | obs-advisor/server/capacitymodel/model.go:186-198 | at every load, changing the target period from t1 to t2 multiplies the estimate, and every possible outcome of the sort, by (t2/t1) to an exponent that does not depend on the target |
| CapacityTheorems.EstimateGrowsWithRetention | obs-advisor/server/capacitymodel/model.go:186-198 | the estimate never decreases when the target period grows, and every outcome for the shorter period is matched by one at least as large for the longer, and conversely |
| CapacityTheorems.DiskProportional | obs-advisor/server/capacitymodel/model.go:129-132 | when all runs lasted equally long, the disk estimate and every possible outcome are proportional to the target period |
| CapacityTheorems.CommonRetentionScales | obs-advisor/server/capacitymodel/model.go:129-138 | with one common retention, CPU scales by the power 0.15 and memory by the power 0.25 of the ratio of target periods, for every outcome |
| CapacityTheorems.MeasurementReproduced | obs-advisor/server/capacitymodel/model.go:186-198 | at a run's own load and period the estimate is the measured value, whatever the other periods |
| CapacityTheorems.FieldsReproduced | obs-advisor/server/capacitymodel/model.go:51-62 | with distinct loads and positive retentions each field of a row is the only answer at its load and own period: CPU and memory at the retention, disk at the days the run lasted, or at the retention when it has no duration |
| CapacityTheorems.ReproducedIff | obs-advisor/server/capacitymodel/model.go:186-198 | every outcome of the sort returns the measured value at a row's own load and period exactly when all contributing rows at that load have the same value per period to the exponent; loads may repeat |
| CapacityTheorems.EstimateGrowsWithLoadIff | obs-advisor/server/capacitymodel/model.go:186-198 | no answer for a load can exceed an answer for a higher load exactly when contributing rows at higher loads, brought to a common period, are no weaker and those at equal loads agree |
| CapacityTheorems.AlphaOrderIndependent | obs-advisor/server/capacitymodel/model.go:120-184 | the exponent is the same for every order of the rows |
| CapacityTheorems.PossibleOrderIndependent | obs-advisor/server/capacitymodel/model.go:186-198 | the order of the rows decides nothing about which outcomes are possible |
| CapacityTheorems.EstimateOrderIndependent | obs-advisor/server/capacitymodel/model.go:186-198 | the estimate is the same for every order of the rows, when no load carries two rescaled values |
| CapacityTheorems.EstimatePossible | obs-advisor/server/capacitymodel/model.go:186-198 | Estimate is itself one of the outcomes the sort can lead to, so possible outcomes always exist |
| CapacityTheorems.EstimateDeterminedIff | obs-advisor/server/capacitymodel/model.go:186-198 | all outcomes of the sort give the same estimates at every load exactly when contributing rows with equal loads satisfy value1 times period2^alpha == value2 times period1^alpha, whatever the target |
| CapacityTheorems.ValueUnits | obs-advisor/server/capacitymodel/model.go:93-198 | multiplying all measured values by k leaves the exponent alone and multiplies the estimate and every possible outcome by k |
| CapacityTheorems.TimeUnits | obs-advisor/server/capacitymodel/model.go:104-198 | multiplying durations, retentions and the target period by k changes neither exponent nor estimate nor what is possible |
| Holdout.EstimateAll | obs-advisor/server/capacitymodel/model.go:200-206 | each component is a possible outcome for its own resource: the clamped curve through some ordering of the rescaled rows |
| Holdout.Round | obs-advisor/server/capacitymodel/model.go:230-244 | a round trains on the other rows and compares each resource, over the period it was measured over, with a possible outcome of the trained estimator |
| Holdout.ValidateHoldout | obs-advisor/server/capacitymodel/model.go:215-256 | no object of the caller is modified; per resource the result is absent exactly below three rows, and otherwise the mean of one possible error per round; with distinct loads it is the mean leave-one-out error |
| Holdout.MeanErrorValue | obs-advisor/server/capacitymodel/model.go:208-255 | the mean error times the number of rows is the sum over all rows of the distance between value and prediction relative to the value, zero for a value that is not positive |
| Holdout.PossibleMeanValue | obs-advisor/server/capacitymodel/model.go:208-255 | a result is possible exactly when it is the mean of such relative errors of possible predictions |
| Holdout.UniformError | obs-advisor/server/capacitymodel/model.go:208-255 | predictions that are all off by the fraction q have the mean error q |
| Holdout.MeanDetermined | obs-advisor/server/capacitymodel/model.go:215-256 | the mean leave-one-out error is the only possible result whenever, in each round with a measurement to predict, training rows with equal loads agree up to their periods |
| Holdout.MeanDeterminedIff | obs-advisor/server/capacitymodel/model.go:215-256 | there is one possible result exactly when every round has one possible error |
| Holdout.MeanErrorZeroIff | obs-advisor/server/capacitymodel/model.go:208-255 | the mean error is never negative, and zero exactly when every left-out positive measurement was predicted exactly |
| Holdout.UnmeasuredScoresZero | obs-advisor/server/capacitymodel/model.go:208-213 | a resource that was never measured gets the perfect score of zero, and no other result, from three rows on |
| Holdout.AffineEstimate | obs-advisor/server/capacitymodel/model.go:186-198 | two or more runs of one period, affine in load, predict every load exactly |
| Holdout.ExactOnAffineData | obs-advisor/server/capacitymodel/model.go:215-256 | leave-one-out is exactly zero on affine data of one period, extrapolated end rows included |
| Holdout.MeanErrorOrderIndependent | obs-advisor/server/capacitymodel/model.go:215-256 | the possible results of leave-one-out are the same for every order of the rows, and so is the mean error when every round has one possible error |
| Holdout.MeanErrorUnitFree | obs-advisor/server/capacitymodel/model.go:208-256 | measuring values or periods in other units changes neither the mean leave-one-out error nor the possible results |
| Report.BuildReport | obs-advisor/server/capacitymodel/model.go:275-353 | refused exactly when no row matches; otherwise possible estimates and possible mean errors of the matching rows (the estimates and leave-one-out errors when loads are distinct), the band of each resource at (1 - budget) and (1 + budget), and, when a price is positive, the cost line of each resource with bytes charged by 1073741824, their total, and its band |
| Report.SelectionExact | obs-advisor/server/capacitymodel/model.go:276-281 | the report is made from the rows of the instrument and the workload, each as often as in the table, and from no others |
| Report.CostGrowsWithRetention | obs-advisor/server/capacitymodel/model.go:325-348 | with nonnegative prices, keeping data longer never costs less: every possible allocation is matched by one for the longer period that costs at least as much, and conversely |
| BrowserChart.Interp | obs-advisor/charts.html:72-91 | on ordered points a number results exactly when the extended end segment is not vertical, and it is the server's value; otherwise the values at that end and the side of x decide between the infinities and NaN; the closing return is never reached |
| BrowserChart.InterpAgrees | obs-advisor/charts.html:72-91 | on strictly increasing loads both implementations agree at every real argument |
| BrowserChart.ModelLine | obs-advisor/charts.html:93-102 | the first sample lies at the padded low end, never below zero, the last at the padded high end, with equal steps between; each shows the server's clamped curve where the extended end segment is not vertical, and otherwise what the clamp leaves of it |
| BrowserChart.DrawnCases | obs-advisor/charts.html:93-101 | what is drawn: the curve or zero, and beyond a vertical end zero, infinity or nothing by the two values there |
| BrowserChart.BaselineExact | obs-advisor/charts.html:223-225 | the chart keeps the rows with a retention of seven days that lasted at most 14400 seconds, each as often as in the table, and no others |
| BrowserChart.ChartPointsExact | obs-advisor/charts.html:227-246 | the points are the positive measurements at their loads, cores as they are and memory by 1073741824 bytes |
| BrowserChart.VerticalEnd | obs-advisor/charts.html:72-101 | with two runs at the lowest load the browser draws zero to their left where the server answers the measured value |
| BrowserChart.ChartShowsEstimate | obs-advisor/charts.html:223-247 | at every load the curve the chart stands for, for CPU and memory, is a possible answer of the server for seven days from the baseline runs alone (retention of seven days, at most four hours), and the only one at every load exactly when baseline rows with equal loads agree |
| BrowserChart.DrawInstrument | obs-advisor/charts.html:93-127 | nothing is drawn for an instrument without points; otherwise a hundred samples, each a possible answer of the server from the baseline runs wherever the extended end segment is not vertical, and the only one when equal loads agree |
| ChartAgreement.CalibrationRunMissed | obs-advisor/charts.html:223-225 | with a day-long calibration run at a load of its own the server can only answer 10 cores where the chart shows 3 |
| ChartAgreement.CalibrationRepeatsLoad | obs-advisor/charts.html:223-225 | a calibration run at a baseline load with another value leaves the server two answers, one of which the chart shows |
| ChartAgreement.CalibrationFlattensEnd | obs-advisor/charts.html:223-225 | a calibration run that repeats the lowest load with the same value lies on the chart, and still the server answers 1 core where the chart shows a half |
| ChartAgreement.ChartAgreesIff | obs-advisor/charts.html:223-247 | every possible answer from all matching rows is the chart's value at every load exactly when rows with equal loads agree, each contributing row that is no baseline run lies, rescaled to seven days, on the chart's curve, and the chart is flat at an end load that is repeated |
| ChartAgreement.DrawnAgreesIff | obs-advisor/charts.html:72-101 | the numbers drawn are every possible answer exactly when, in addition, neither end load of the chart is repeated |
| TotalView.RenderTotal | obs-advisor/index.html:339-358 | the rows are all combinations, in the order they are built in, stably sorted by total: an empty section adds nothing, metrics and logs offers come from their own sections, no combination is left out or repeated, and the first row costs the sum of the section minima |
| TotalView.RenderAll | obs-advisor/index.html:391-394 | the same for sections sorted by cost, and no combination the offers allow is cheaper than the highlighted one |
| Instruments.TrimNames | obs-bench/internal/enum/enum.go:38-40 | trimming yields a name exactly when the input is that name inside white space |
| Instruments.ParseInstrument | obs-bench/internal/enum/enum.go:37-45 | accepts exactly prometheus, victoria_metrics, loki and opensearch inside optional white space and returns the name |
| Storage.Database.EnsureMigrated | obs-bench/internal/providers/resources-usage-info-storage/storage.go:51-130 | all or nothing under any failure; an up-to-date table is untouched; succeeds exactly if the table is up to date, or can be copied and no call fails that matters |
| Storage.UpToDateIff | obs-bench/internal/providers/resources-usage-info-storage/storage.go:58-60 | no migration is needed exactly when the table has the columns workload_type, load_value and retention_days in whatever case |
| Storage.CopyableIff | obs-bench/internal/providers/resources-usage-info-storage/storage.go:77-115 | a table can be copied exactly when it has the nine columns that are read and no row lacks a time, a series, an instrument or a measurement |
| Storage.MigrationConserves | obs-bench/internal/providers/resources-usage-info-storage/storage.go:98-124 | the result is up to date, other tables stay, and every row keeps identity, instrument and measurements, its load from the series column, and a workload type agreeing with IsLogBackend |
| Storage.Database.Open | obs-bench/internal/providers/resources-usage-info-storage/storage.go:24-49 | an opened database is up to date: unchanged if it was, migrated if it was old, with an empty table if it had none; the exact condition for success, and a failure leaves at most the empty table behind |
| Storage.Database.Save | obs-bench/internal/providers/resources-usage-info-storage/storage.go:167-175 | appends one row or fails and changes nothing |
| Experiment.Validate | obs-bench/internal/commands/run-batch/command.go:27-43 | accepts exactly a positive load, a retention of 1, 7 or 30 days, a positive duration and one of the four instrument names inside white space |
| Experiment.Runner.RunExperiment | obs-bench/internal/usecases/experiment/usecase.go:51-91 | stages run in order with the parameters given, each exactly when the earlier ones succeeded; resources are collected over the run without its first 900 seconds, or over all of a run not longer; one row is appended exactly when all succeed |
| Experiment.RecordOfFields | obs-bench/internal/usecases/experiment/usecase.go:76-86 | every field of the row a run leaves behind, the duration in whole seconds |
| Experiment.Runner.RunEntry | obs-bench/internal/commands/run-batch/command.go:73-88 | an invalid entry starts no stage; an entry is saved exactly when it is valid and all stages succeed |
| Experiment.Runner.RunBatch | obs-bench/internal/commands/run-batch/command.go:52-96 | every entry is counted and run once, in order, the rows of the successful ones are appended in order, a table fit for the advisor stays fit, and success is reported exactly when there are entries and all were saved |
| Experiment.SavedRecordsMeasured | obs-bench/internal/usecases/experiment/usecase.go:76-86 | every row a batch saves has a workload type agreeing with IsLogBackend, a positive load and a positive measured period |
| Experiment.MigrationFitIff | obs-bench/internal/providers/resources-usage-info-storage/storage.go:98-117 | a migrated table is fit for the advisor exactly when the old instruments are text and the old measurements numbers |
| Pipeline.FitFeedsEstimator | obs-advisor/server/main.go:107-130 | every row of a fit table is read back, and together they meet the estimator's precondition for every resource |
| Pipeline.ReportsDefined | obs-advisor/server/capacitymodel/model.go:275-287 | every report over a fit table, whoever wrote its rows, meets the estimator's precondition |
| Pipeline.MeasuredConfigurationAnswered | obs-advisor/server/capacitymodel/model.go:275-287 | asked for a configuration the batch ran, whatever fit rows the table held before, every possible answer for CPU or peak memory is the one measured in that run exactly when the contributing rows at that load agree with it |
| Pipeline.RepeatedEntryLeavesAnswerOpen | obs-advisor/server/capacitymodel/model.go:64-82 | a batch that repeats an entry and measures 1 and 2 cores makes both possible answers to the same question |
| QueryWait.WaitForQueryAPI | obs-bench/internal/services/experimentworkload/workload.go:154-184 | how each outcome arises and when the call ends in each, that all queries but the last met transient errors, that every query starts before the deadline with the context alive, and the time every wait takes |
| QueryWait.WaitSumClosedForm | obs-bench/internal/services/experimentworkload/workload.go:156-178 | closed form of the sum of the first k waits |
| QueryWait.QueriesBound | obs-bench/internal/services/experimentworkload/workload.go:158-179 | for any timeout, at most the first count of queries whose waits reach it |
| QueryWait.NinetySeconds | obs-bench/internal/services/experimentworkload/workload.go:106-108 | ninety seconds allow at most 48 queries, and exactly 48 are made when nothing but the waits takes time |
| SendLoop.SendSecond | obs-bench/images/log-load-generator/main.go:27-61 | every batch is a tenth of the rate, at least one line and at most 500, or the rest of the quota; a failed flush costs 50 milliseconds; the loop stops exactly when the quota is met or the second is over; at most max(19, ceil(lps/500)) flushes succeed and twenty fail |
| SendLoop.Run | obs-bench/images/log-load-generator/main.go:27-62 | the total is the sum over the seconds; the average rate never exceeds the requested one, and equals it when every flush succeeds at once |
| NamespaceDeletion.DeleteNamespace | obs-bench/internal/providers/kubernetes/provider.go:121-176 | against any environment, the whole log of calls and the outcome: the replies in order; Delete once, second, only on a namespace not terminating; one forced finalisation right after the first poll that answers late and terminating, exactly if there is one; and one between the expiry of the context and the last query, and nowhere else |
| NamespaceDeletion.DeletionEnds | obs-bench/internal/providers/kubernetes/provider.go:138-160 | if queries fail once the context has expired, at most 1501 polls are made and the call ends |

## Left out

- Floating point: rounding, and on the server NaN and infinities; the estimator works on exact reals, and "not available" is an option value.
- CapacityModel.EstimateResource: requires positive periods on the contributing rows, because Go would compute infinities or NaN from a zero or negative period; `FitFeedsEstimator` shows that every table written by batches, or migrated from typed rows, meets it.
- Holdout.EstimateAll: with equal loads the sort leaves the outcome open, so the values are stated as possible outcomes.
- Holdout.Round: likewise; each error is the error of a possible outcome.
- Holdout.ValidateHoldout: likewise; each mean is the mean of errors of possible outcomes, and the only one under `MeanDeterminedIff`.
- Report.BuildReport: likewise; estimates and errors are exact when the matching loads are distinct.
- BrowserChart.ChartShowsEstimate: not stated for the disk panel, which plots usage per hour of run and has no counterpart on the server.
- Logarithm and power: not defined numerically, only constrained by the laws listed above.
- The report's strings, quality targets and aggregation windows: constant tables and formatting.
- The stages of an experiment (monitoring, deployment, load, collection): arbitrary outcomes; Docker, Helm, PromQL and port forwarding are I/O.
- SQLite types and uniqueness of identifiers; the identifier and time of an inserted row are parameters supplied by the database.
- The texts that make a query error transient, the HTTP bodies of a flush, and which finalizers a forced finalisation strips.
- Real clocks: time is virtual, in whole milliseconds (nanoseconds for run durations), and advanced by waits, ticks and replies.
- Routers, configuration, HTTP handlers, rendering and chart drawing: lookups, plumbing and text.
