/** The scenarios of UriReportTest, stated against the model: the fixture of
    three samples, the empty report, the diffs against a last build of two
    samples, and the four sorting cases. */
module UriReportScenarios {
  import opened Samples
  import opened Statistics
  import opened UriReports

  /** The fixture: durations 10, 5 and 0 at one timestamp, the first and the
      last unsuccessful. */
  function Fixture(now: int): seq<Sample>
  {
    [Sample(Some(now), 10, "", false, false),
     Sample(Some(now), 5, "", true, false),
     Sample(Some(now), 0, "", false, false)]
  }

  /** The last build: durations 4 and 8, both successful, without timestamps. */
  function LastBuildFixture(): seq<Sample>
  {
    [Sample(None, 4, "", true, false), Sample(None, 8, "", true, false)]
  }

  /** Sorting the fixture reverses it: durations [0, 5, 10]. */
  lemma FixtureSorted(now: int)
    ensures Sort(Fixture(now)) == [Fixture(now)[2], Fixture(now)[1], Fixture(now)[0]]
  {
    var s := Fixture(now);
    var a, b, c := s[0], s[1], s[2];
    assert s[1..] == [b, c] && [b, c][1..] == [c];
    assert Sort([c]) == [c];
    assert Insert(b, [c]) == [c] + Insert(b, []);
    assert Sort([b, c]) == [c, b];
    assert [c, b][1..] == [b];
    assert Insert(a, [b]) == [b] + Insert(a, []);
    assert Insert(a, [c, b]) == [c] + Insert(a, [b]);
  }

  lemma FixtureTotals(now: int)
    ensures TotalDuration(Fixture(now)) == 15 && CountErrors(Fixture(now)) == 2
  {
    var s := Fixture(now);
    assert s[..2][..1] == [s[0]] && s[..2] == [s[0], s[1]];
    assert [s[0]][..0] == [];
    assert TotalDuration([s[0]]) == 10 && CountErrors([s[0]]) == 1;
  }

  /** The fixture's statistics: 2 errors, average 5, and from the sorted
      durations [0, 5, 10] by the percentile index rule median 0 and 90th and
      95th percentiles 5. */
  lemma FixtureStatistics(now: int)
    ensures CountErrors(Fixture(now)) == 2
    ensures Average(Fixture(now)) == 5
    ensures SortedDurations(Fixture(now)) == [0, 5, 10]
    ensures Percentile(Fixture(now), 50) == 0
    ensures Percentile(Fixture(now), 90) == 5
    ensures Percentile(Fixture(now), 95) == 5
    ensures ErrorPercent(Fixture(now)) == 200.0 / 3.0
  {
    FixtureSorted(now);
    FixtureTotals(now);
    assert PercentileIndex(3, 50) == 0;
    assert PercentileIndex(3, 90) == 1;
    assert PercentileIndex(3, 95) == 1;
  }

  /** The last build: average 6 and median 4 (the first of [4, 8]). */
  lemma LastBuildStatistics()
    ensures CountErrors(LastBuildFixture()) == 0
    ensures Average(LastBuildFixture()) == 6
    ensures Percentile(LastBuildFixture(), 50) == 4
    ensures ErrorPercent(LastBuildFixture()) == 0.0
  {
    var s := LastBuildFixture();
    assert s[1..] == [s[1]];
    assert Sort([s[1]]) == [s[1]];
    assert Insert(s[0], [s[1]]) == s;
    assert s[..1] == [s[0]] && [s[0]][..0] == [];
    assert TotalDuration([s[0]]) == 4 && CountErrors([s[0]]) == 0;
    assert TotalDuration(s) == 12;
    assert PercentileIndex(2, 50) == 0;
  }

  /** setUp: a report built by three calls to AddHttpSample. */
  method SetUp(now: int) returns (r: UriReport)
    ensures fresh(r) && r.Valid() && r.samples == Fixture(now) && r.lastBuild == null
  {
    r := new UriReport();
    var f := Fixture(now);
    r.AddHttpSample(f[0]);
    r.AddHttpSample(f[1]);
    r.AddHttpSample(f[2]);
  }

  /** testDiffs' last build: a report of two samples. */
  method SetUpLastBuild() returns (r: UriReport)
    ensures fresh(r) && r.Valid() && r.samples == LastBuildFixture() && r.lastBuild == null
  {
    r := new UriReport();
    var l := LastBuildFixture();
    r.AddHttpSample(l[0]);
    r.AddHttpSample(l[1]);
  }

  /** The single-report tests: what each accessor answers for the fixture. */
  method FixtureAccessors(now: int)
    returns (hasSamples: bool, errors: nat, average: nat, median: nat, line90: nat,
             line95: nat, errorPercent: real, count: nat, listSize: nat, max: nat,
             min: nat, failed: bool)
    ensures hasSamples && errors == 2 && average == 5 && median == 0
    ensures line90 == 5 && line95 == 5 && errorPercent == 200.0 / 3.0
    ensures count == 3 && listSize == 3 && max == 10 && min == 0 && failed
  {
    var r := SetUp(now);
    FixtureStatistics(now);
    hasSamples := r.HasSamples();
    errors := r.CountErrors();
    average := r.GetAverage();
    median := r.GetMedian();
    line90 := r.Get90Line();
    line95 := r.Get95Line();
    errorPercent := r.ErrorPercent();
    count := r.SamplesCount();
    listSize := |r.GetHttpSampleList()|;
    max := r.GetMax();
    min := r.GetMin();
    failed := r.IsFailed();
    assert !r.samples[0].successful;
  }

  /** testEmptyReport: every accessor of a report without samples answers 0,
      false or the empty list. */
  method EmptyReportAccessors()
    returns (list: seq<Sample>, hasSamples: bool, errors: nat, average: nat, max: nat,
             min: nat, median: nat, failed: bool, errorPercent: real, count: nat)
    ensures list == [] && !hasSamples && errors == 0 && average == 0 && max == 0
    ensures min == 0 && median == 0 && !failed && errorPercent == 0.0 && count == 0
  {
    var r := new UriReport();
    list := r.GetHttpSampleList();
    hasSamples := r.HasSamples();
    errors := r.CountErrors();
    average := r.GetAverage();
    max := r.GetMax();
    min := r.GetMin();
    median := r.GetMedian();
    failed := r.IsFailed();
    errorPercent := r.ErrorPercent();
    count := r.SamplesCount();
  }

  /** testDiffs: against the last build, every diff is this build minus the
      last, the sample count included (3 - 2 = 1). */
  method Diffs(now: int) returns (average: int, median: int, errorPercent: real, count: int)
    ensures average == -1 && median == -4 && errorPercent == 200.0 / 3.0 && count == 1
  {
    var r := SetUp(now);
    var last := SetUpLastBuild();
    r.AddLastBuildUriReport(last);
    FixtureStatistics(now);
    LastBuildStatistics();
    average := r.GetAverageDiff();
    median := r.GetMedianDiff();
    errorPercent := r.GetErrorPercentDiff();
    count := r.GetSamplesCountDiff();
  }

  // The four sorting tests: `Collections.sort` (SortSamples) on a list of two.

  /** Same date, durations 2 then 1: the shorter comes first. */
  lemma SameDateDifferentDuration()
    ensures var s := Sort([Sample(Some(1), 2, "200", true, false),
                           Sample(Some(1), 1, "200", true, false)]);
            s[0].duration == 1 && s[1].duration == 2
  {
  }

  /** Same duration, dates 2 then 1: the older comes first. */
  lemma DifferentDateSameDuration()
    ensures var s := Sort([Sample(Some(2), 1, "200", true, false),
                           Sample(Some(1), 1, "200", true, false)]);
            s[0].date == Some(1) && s[1].date == Some(2)
  {
  }

  /** Date 1 with duration 2, date 2 with duration 1: the shorter comes first
      although its date is newer. */
  lemma DifferentDateDifferentDuration()
    ensures var s := Sort([Sample(Some(1), 2, "200", true, false),
                           Sample(Some(2), 1, "200", true, false)]);
            s[0].duration == 1 && s[1].duration == 2
  {
  }

  /** Two samples without dates and with equal durations sort without failing:
      they compare as equal and keep their order. */
  lemma NullDateSameDuration()
    ensures var x := Sample(None, 1, "200", true, false);
            Compare(x, x) == 0 && Sort([x, x]) == [x, x]
  {
  }
}
