# UriReport — per-endpoint performance statistics

A Dafny model of `UriReport` from the Jenkins performance plugin
(`hudson.plugins.performance.reports`), as its behaviour is fixed by
`UriReportTest.java`. A `UriReport` collects the timed request samples of one
endpoint (URI) in one build, answers summary statistics about them (count,
errors, average, minimum, maximum, percentiles, error percentage, failed or
not) and compares itself with the same endpoint's report from the last build.

Layout:

- `sample.dfy`, module `Samples`: the `Sample` value (optional timestamp,
  duration, response code, success flag, secondary error flag), its
  comparator `Compare` (`Sample.compareTo`) with the comparator contract
  proved, and `Collections.sort` as a stable insertion sort `Sort` plus the
  in-place method `SortSamples` on an array.
- `statistics.dfy`, module `Statistics`: every statistic as a function of the
  sample list, and the lemmas about them (error counting, average bounds,
  the percentile index rule, empty-list identities).
- `uri_report.dfy`, module `UriReports`: the class `UriReport`. Its methods
  append samples and record the last build's report; it keeps running
  totals (count, sum of durations, errors) that `Valid()` ties to the
  functions of `Statistics`. The count, error, average, error-percentage,
  percentile and diff accessors are proved equal to those functions; the
  sample list is the held samples; `GetMin` and `GetMax` are specified
  directly as the least and greatest observed duration.
- `uri_report_test.dfy`, module `UriReportScenarios`: the test scenarios
  (the three-sample fixture, the empty report, the diffs, the four sorting
  cases) stated as lemmas and as client methods of the class.

Modelling choices:

- Timestamps are `Option<int>` milliseconds. An absent timestamp ranks below
  every present one. The comparator is then a total order on (duration,
  timestamp) pairs, so sorting samples without timestamps cannot fail.
  Samples that differ only in response code or flags compare as equal.
- The order is by duration first, then by timestamp, as the tests require
  (an older sample with a longer duration sorts after a newer, shorter one).
- Percentile `p` is an integer percent. Its index in the ascending durations
  is `N * p / 100 - 1`, clamped to `[0, N - 1]`. This is deliberately not
  nearest rank: the median of three samples is the smallest one.
- The error percentage is an exact `real`, `100 * errors / N`. The fixture's
  value is exactly 200/3.
- All four diffs are this build minus the last build, the sample count
  included (3 now, 2 before, gives 1). Without a last build, the baseline is
  an empty report, so each diff equals the current value.
- `new Date()` in the test fixture becomes a parameter `now`.
- Two choices follow the tests directly. Samples sort by duration first and
  by timestamp only at equal durations (UriReportTest.java:190-204). The
  sample-count diff is current minus last (UriReportTest.java:146).

## Model

| member | source | states |
|---|---|---|
| Samples.Compare | src/test/java/hudson/plugins/performance/reports/UriReportTest.java:149-220 | `Sample.compareTo`: the result is -1, 0 or 1, and when durations differ it is negative exactly for the shorter duration |
| Samples.CompareDates | src/test/java/hudson/plugins/performance/reports/UriReportTest.java:206-220 | comparing two timestamps is defined for absent ones too, gives -1, 0 or 1, and gives 0 exactly for equal timestamps |
| Samples.ShorterDurationFirst | src/test/java/hudson/plugins/performance/reports/UriReportTest.java:187-204 | a shorter duration sorts first whatever the timestamps, and the comparison is reversed when the arguments are swapped |
| Samples.OlderDateFirst | src/test/java/hudson/plugins/performance/reports/UriReportTest.java:168-185 | at equal durations the older timestamp sorts first, and an absent timestamp sorts before a present one |
| Samples.CompareZeroIff | src/test/java/hudson/plugins/performance/reports/UriReportTest.java:206-220 | two samples compare equal exactly when duration and timestamp are equal, so two undated samples of one duration compare as equal |
| Samples.CompareAntisymmetric | src/test/java/hudson/plugins/performance/reports/UriReportTest.java:206-220 | swapping the arguments negates the result, which is always -1, 0 or 1 |
| Samples.CompareTransitive | src/test/java/hudson/plugins/performance/reports/UriReportTest.java:206-220 | the order is transitive, both weak and strict, so sorting cannot hit a comparator contract violation |
| Samples.CompareConsistent | src/test/java/hudson/plugins/performance/reports/UriReportTest.java:206-220 | samples that compare equal compare the same way with every third sample |
| Samples.PrecedesDuration | src/test/java/hudson/plugins/performance/reports/UriReportTest.java:149-166 | when one sample precedes another, its duration is no larger |
| Samples.InsertSpec | src/test/java/hudson/plugins/performance/reports/UriReportTest.java:160 | inserting into a sorted list keeps it sorted and adds exactly the inserted sample |
| Samples.Sort | src/test/java/hudson/plugins/performance/reports/UriReportTest.java:160 | the outcome of `Collections.sort`: a list of the same length (its order and permutation are SortSpec) |
| Samples.SortSpec | src/test/java/hudson/plugins/performance/reports/UriReportTest.java:160 | sorting yields a list in comparator order that is a permutation of the input |
| Samples.SortSamples | src/test/java/hudson/plugins/performance/reports/UriReportTest.java:155-165 | sorting the list in place leaves it in comparator order, a permutation of the old contents |
| Statistics.CountErrors | src/test/java/hudson/plugins/performance/reports/UriReportTest.java:54-57 | the number of unsuccessful samples, never more than the number of samples |
| Statistics.Average | src/test/java/hudson/plugins/performance/reports/UriReportTest.java:59-62 | the mean rounded down: N*avg <= total < N*avg + N, and 0 without samples |
| Statistics.ErrorPercent | src/test/java/hudson/plugins/performance/reports/UriReportTest.java:82-85 | the exact percentage pct with pct*N == 100*errors, and 0 without samples |
| Statistics.AppendTotals | src/test/java/hudson/plugins/performance/reports/UriReportTest.java:44-46 | appending a sample adds its duration to the total and adds one error exactly when it is unsuccessful |
| Statistics.FailedIffUnsuccessful | src/test/java/hudson/plugins/performance/reports/UriReportTest.java:107-110 | the error count is positive if and only if some sample is unsuccessful |
| Statistics.ErrorPercentBounds | src/test/java/hudson/plugins/performance/reports/UriReportTest.java:82-85 | the error percentage lies in [0, 100]; it is 0 exactly without errors and 100 exactly when every sample failed |
| Statistics.TotalDurationBounds | src/test/java/hudson/plugins/performance/reports/UriReportTest.java:59-62 | with every duration in [lo, hi], the total lies in [N*lo, N*hi] |
| Statistics.AverageBetweenMinAndMax | src/test/java/hudson/plugins/performance/reports/UriReportTest.java:59-62 | the truncated average lies between any lower and any upper bound of the durations |
| Statistics.PercentileIndex | src/test/java/hudson/plugins/performance/reports/UriReportTest.java:64-80 | the clamped percentile index always falls inside the list |
| Statistics.Percentile | src/test/java/hudson/plugins/performance/reports/UriReportTest.java:64-80 | the percentile of a non-empty report is the duration of one of its samples, never interpolated; 0 without samples |
| Statistics.DurationsInsert | src/test/java/hudson/plugins/performance/reports/UriReportTest.java:160 | inserting a sample into a list adds exactly its duration to the multiset of durations |
| Statistics.DurationsSort | src/test/java/hudson/plugins/performance/reports/UriReportTest.java:64-80 | the sorted durations are the same multiset as the samples' durations |
| Statistics.SortedDurationsSpec | src/test/java/hudson/plugins/performance/reports/UriReportTest.java:64-80 | the sorted durations have one entry per sample, are a permutation of the samples' durations, ascend, and each is some sample's duration |
| Statistics.PercentileMonotone | src/test/java/hudson/plugins/performance/reports/UriReportTest.java:64-80 | a larger percent never yields a smaller percentile, so median <= 90th <= 95th line |
| Statistics.PercentileExtremes | src/test/java/hudson/plugins/performance/reports/UriReportTest.java:64-68 | the 100th percentile is the maximum; any percent with N*p < 200 gives the minimum, as for the median of three samples |
| Statistics.EmptyIdentities | src/test/java/hudson/plugins/performance/reports/UriReportTest.java:112-125 | without samples the error count, total, average, every percentile and the error percentage are 0 |
| UriReports.UriReport.constructor | src/test/java/hudson/plugins/performance/reports/UriReportTest.java:112-116 | a new report has no samples, no last build, and consistent totals |
| UriReports.UriReport.AddHttpSample | src/test/java/hudson/plugins/performance/reports/UriReportTest.java:44-46 | appends exactly the given sample at the end, keeps the running totals consistent, and leaves the last build alone |
| UriReports.UriReport.AddLastBuildUriReport | src/test/java/hudson/plugins/performance/reports/UriReportTest.java:139 | records the given report as the last build and changes nothing else |
| UriReports.UriReport.GetHttpSampleList | src/test/java/hudson/plugins/performance/reports/UriReportTest.java:92-95 | returns exactly the held samples in the order they were added, as many as were counted |
| UriReports.UriReport.SamplesCount | src/test/java/hudson/plugins/performance/reports/UriReportTest.java:87-90 | the running count equals the number of samples held |
| UriReports.UriReport.HasSamples | src/test/java/hudson/plugins/performance/reports/UriReportTest.java:49-52 | true if and only if the report holds a sample |
| UriReports.UriReport.CountErrors | src/test/java/hudson/plugins/performance/reports/UriReportTest.java:54-57 | the running error count equals the number of unsuccessful samples and is at most the sample count |
| UriReports.UriReport.IsFailed | src/test/java/hudson/plugins/performance/reports/UriReportTest.java:107-110 | true if and only if some sample is unsuccessful |
| UriReports.UriReport.GetAverage | src/test/java/hudson/plugins/performance/reports/UriReportTest.java:59-62 | the average computed from the running totals equals the truncated mean of the durations (0 when empty) |
| UriReports.UriReport.ErrorPercent | src/test/java/hudson/plugins/performance/reports/UriReportTest.java:82-85 | the percentage computed from the running totals equals 100 * errors / N (0 when empty) and lies in [0, 100] |
| UriReports.UriReport.GetMin | src/test/java/hudson/plugins/performance/reports/UriReportTest.java:102-105 | returns an observed duration no larger than any other, or 0 without samples |
| UriReports.UriReport.GetMax | src/test/java/hudson/plugins/performance/reports/UriReportTest.java:97-100 | returns an observed duration no smaller than any other, or 0 without samples |
| UriReports.UriReport.GetDurationAt | src/test/java/hudson/plugins/performance/reports/UriReportTest.java:64-80 | sorting a copy of the samples and reading the clamped index floor(N*p/100)-1 gives the percentile of the sorted durations |
| UriReports.UriReport.GetMedian | src/test/java/hudson/plugins/performance/reports/UriReportTest.java:64-68 | the median is the 50th percentile by the index rule |
| UriReports.UriReport.Get90Line | src/test/java/hudson/plugins/performance/reports/UriReportTest.java:70-74 | the 90 line is the 90th percentile by the index rule |
| UriReports.UriReport.Get95Line | src/test/java/hudson/plugins/performance/reports/UriReportTest.java:76-80 | the 95 line is the 95th percentile by the index rule |
| UriReports.UriReport.GetAverageDiff | src/test/java/hudson/plugins/performance/reports/UriReportTest.java:141-143 | this build's average minus the last build's; equal to the current average without a last build |
| UriReports.UriReport.GetMedianDiff | src/test/java/hudson/plugins/performance/reports/UriReportTest.java:144 | this build's median minus the last build's; equal to the current median without a last build |
| UriReports.UriReport.GetErrorPercentDiff | src/test/java/hudson/plugins/performance/reports/UriReportTest.java:145 | this build's error percentage minus the last build's, within [-100, 100]; equal to the current percentage without a last build |
| UriReports.UriReport.GetSamplesCountDiff | src/test/java/hudson/plugins/performance/reports/UriReportTest.java:146 | this build's sample count minus the last build's (current minus previous); equal to the current count without a last build |
| UriReportScenarios.FixtureSorted | src/test/java/hudson/plugins/performance/reports/UriReportTest.java:64-80 | sorting the fixture's durations 10, 5, 0 gives 0, 5, 10 |
| UriReportScenarios.FixtureTotals | src/test/java/hudson/plugins/performance/reports/UriReportTest.java:54-62 | the fixture's durations sum to 15, and two of its samples are errors |
| UriReportScenarios.FixtureStatistics | src/test/java/hudson/plugins/performance/reports/UriReportTest.java:54-85 | fixture: 2 errors, average 5, median 0, 90th and 95th percentile 5, error percentage 200/3 |
| UriReportScenarios.LastBuildStatistics | src/test/java/hudson/plugins/performance/reports/UriReportTest.java:129-142 | last build [4, 8]: no errors, average 6, median 4, error percentage 0 |
| UriReportScenarios.SetUp | src/test/java/hudson/plugins/performance/reports/UriReportTest.java:27-47 | three appends build a consistent report that holds exactly the fixture |
| UriReportScenarios.SetUpLastBuild | src/test/java/hudson/plugins/performance/reports/UriReportTest.java:129-137 | two appends build a consistent report that holds exactly the last build's samples |
| UriReportScenarios.FixtureAccessors | src/test/java/hudson/plugins/performance/reports/UriReportTest.java:49-110 | through the class: has samples, 2 errors, average 5, median 0, 90 and 95 lines 5, 200/3 percent, 3 samples, list size 3, max 10, min 0, failed |
| UriReportScenarios.EmptyReportAccessors | src/test/java/hudson/plugins/performance/reports/UriReportTest.java:112-125 | through the class: an empty report has an empty list, no samples, and zero errors, average, max, min, median, percentage and count, and is not failed |
| UriReportScenarios.Diffs | src/test/java/hudson/plugins/performance/reports/UriReportTest.java:127-147 | through the class, against the last build: diffs -1, -4, 200/3 and +1 |
| UriReportScenarios.SameDateDifferentDuration | src/test/java/hudson/plugins/performance/reports/UriReportTest.java:149-166 | same date, durations 2 then 1: after sorting, durations read 1, 2 |
| UriReportScenarios.DifferentDateSameDuration | src/test/java/hudson/plugins/performance/reports/UriReportTest.java:168-185 | same duration, dates 2 then 1: after sorting, dates read 1, 2 |
| UriReportScenarios.DifferentDateDifferentDuration | src/test/java/hudson/plugins/performance/reports/UriReportTest.java:187-204 | date 1 with duration 2 and date 2 with duration 1: after sorting, durations read 1, 2 |
| UriReportScenarios.NullDateSameDuration | src/test/java/hudson/plugins/performance/reports/UriReportTest.java:206-220 | two undated samples of equal duration compare as equal and sort without failing, keeping their order |

## Left out

- `UriReport.java` and `HttpSample` are not part of this model. Their behaviour is taken from what the tests assert about them.
- `PerformanceReport`, the owning run object, is left out, together with its configured list of percentiles. The report takes a percentile as an integer percent instead. The constructor's owner and URI arguments are left out because no assertion depends on them.
- UriReports.UriReport.CountErrors: `errorObtained` is carried but does not count as an error. Errors are exactly the samples whose `successful` flag is false. No test sets the secondary flag, so its part in error counting is not asserted.
- No build-failed flag from outside the report is modelled; `isFailed` depends only on the samples.
- Durations are unbounded `nat`s. Java's 64-bit `long` overflow of the summed durations is not modelled.
- The rejection of negative durations is carried by the type. `Sample.duration` is a `nat`, so a negative sample cannot be built.
- The error percentage and its diff are exact rationals, not IEEE doubles, so the tests' 0.001 tolerance is not needed.
- `java.util.Date` becomes an optional millisecond count, and the clock read by `new Date()` becomes a parameter.
- `Collections.sort` is modelled by its outcome: a stable insertion sort, written back into the array. Java's merge sort is not modelled. Stability itself is not proved.
- The running totals are modelled as plain fields. Whether the original caches them or recomputes them is not visible in the tests; either way the accessors return the same values.
