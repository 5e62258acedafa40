/** `UriReport`: the samples of one endpoint, with running totals kept as they
    are appended, the statistics read from them, and the differences against
    the report of the last build. */
module UriReports {
  import opened Samples
  import Statistics

  class UriReport {
    var samples: seq<Sample>
    // running totals, updated by every AddHttpSample
    var samplesCount: nat
    var totalDuration: nat
    var errorCount: nat
    // the same endpoint's report in the last build, if one was given
    var lastBuild: UriReport?

    /** The running totals agree with the samples. */
    ghost predicate Valid()
      reads this
    {
      && samplesCount == |samples|
      && totalDuration == Statistics.TotalDuration(samples)
      && errorCount == Statistics.CountErrors(samples)
    }

    /** The samples of the last build, or none when there is no last build. */
    ghost function LastSamples(): seq<Sample>
      reads this, lastBuild
    {
      if lastBuild == null then [] else lastBuild.samples
    }

    /** Both this report and the last build's report, if any, are consistent. */
    ghost predicate ValidWithLast()
      reads this, lastBuild
    {
      Valid() && (lastBuild != null ==> lastBuild.Valid())
    }

    constructor ()
      ensures Valid() && samples == [] && lastBuild == null
    {
      samples := [];
      samplesCount, totalDuration, errorCount := 0, 0, 0;
      lastBuild := null;
    }

    /** `addHttpSample`: appends one sample; nothing else changes. */
    method AddHttpSample(s: Sample)
      requires Valid()
      modifies this`samples, this`samplesCount, this`totalDuration, this`errorCount
      ensures Valid() && samples == old(samples) + [s]
    {
      Statistics.AppendTotals(samples, s);
      samples := samples + [s];
      samplesCount := samplesCount + 1;
      totalDuration := totalDuration + s.duration;
      if !s.successful {
        errorCount := errorCount + 1;
      }
    }

    /** `addLastBuildUriReport`: remembers the last build's report. */
    method AddLastBuildUriReport(last: UriReport?)
      modifies this`lastBuild
      ensures lastBuild == last
    {
      lastBuild := last;
    }

    /** `getHttpSampleList`: the held samples in the order they were added, as
        many as were counted. */
    function GetHttpSampleList(): (list: seq<Sample>)
      reads this
      requires Valid()
      ensures list == samples
      ensures |list| == samplesCount
    {
      samples
    }

    /** `samplesCount`: the counter equals the length of the sample list. */
    function SamplesCount(): (n: nat)
      reads this
      requires Valid()
      ensures n == |samples|
    {
      samplesCount
    }

    /** `hasSamples`: true exactly when a sample was added. */
    function HasSamples(): (b: bool)
      reads this
      requires Valid()
      ensures b <==> samples != []
    {
      samplesCount > 0
    }

    /** `countErrors`: the number of unsuccessful samples, at most all of them. */
    function CountErrors(): (n: nat)
      reads this
      requires Valid()
      ensures n == Statistics.CountErrors(samples) && n <= |samples|
    {
      errorCount
    }

    /** `isFailed`: true exactly when some sample was unsuccessful. */
    function IsFailed(): (b: bool)
      reads this
      requires Valid()
      ensures b <==> exists i :: 0 <= i < |samples| && !samples[i].successful
    {
      Statistics.FailedIffUnsuccessful(samples);
      errorCount > 0
    }

    /** `getAverage`: the truncated mean of the durations, from the totals. */
    function GetAverage(): (avg: nat)
      reads this
      requires Valid()
      ensures avg == Statistics.Average(samples)
    {
      if samplesCount == 0 then 0 else totalDuration / samplesCount
    }

    /** `errorPercent`: 100 * errors / count, from the totals, within [0, 100]. */
    function ErrorPercent(): (pct: real)
      reads this
      requires Valid()
      ensures pct == Statistics.ErrorPercent(samples)
      ensures 0.0 <= pct <= 100.0
    {
      Statistics.ErrorPercentBounds(samples);
      if samplesCount == 0 then 0.0 else (100 * errorCount) as real / samplesCount as real
    }

    /** `getMin`: the smallest duration, 0 without samples. */
    method GetMin() returns (m: nat)
      ensures samples == [] ==> m == 0
      ensures samples != [] ==> exists k :: 0 <= k < |samples| && m == samples[k].duration
      ensures forall k :: 0 <= k < |samples| ==> m <= samples[k].duration
    {
      if samples == [] {
        return 0;
      }
      m := samples[0].duration;
      var i := 1;
      while i < |samples|
        invariant 1 <= i <= |samples|
        invariant exists k :: 0 <= k < i && m == samples[k].duration
        invariant forall k :: 0 <= k < i ==> m <= samples[k].duration
      {
        if samples[i].duration < m {
          m := samples[i].duration;
        }
        i := i + 1;
      }
    }

    /** `getMax`: the largest duration, 0 without samples. */
    method GetMax() returns (m: nat)
      ensures samples == [] ==> m == 0
      ensures samples != [] ==> exists k :: 0 <= k < |samples| && m == samples[k].duration
      ensures forall k :: 0 <= k < |samples| ==> samples[k].duration <= m
    {
      m := 0;
      var i := 0;
      while i < |samples|
        invariant 0 <= i <= |samples|
        invariant i == 0 ==> m == 0
        invariant i > 0 ==> exists k :: 0 <= k < i && m == samples[k].duration
        invariant forall k :: 0 <= k < i ==> samples[k].duration <= m
      {
        if i == 0 || samples[i].duration > m {
          m := samples[i].duration;
        }
        i := i + 1;
      }
    }

    /** `getDurationAt`: sorts a copy of the samples and reads the duration at
        the percentile index (see Statistics.PercentileIndex). */
    method GetDurationAt(p: nat) returns (d: nat)
      ensures d == Statistics.Percentile(samples, p)
    {
      var n := |samples|;
      if n == 0 {
        return 0;
      }
      var list := samples;
      var a := new Sample[n](i requires 0 <= i < n => list[i]);
      assert a[..] == list;
      SortSamples(a);
      d := a[Statistics.PercentileIndex(n, p)].duration;
    }

    /** `getMedian`: the 50th percentile. */
    method GetMedian() returns (d: nat)
      ensures d == Statistics.Percentile(samples, 50)
    {
      d := GetDurationAt(50);
    }

    /** `get90Line`: the 90th percentile. */
    method Get90Line() returns (d: nat)
      ensures d == Statistics.Percentile(samples, 90)
    {
      d := GetDurationAt(90);
    }

    /** `get95Line`: the 95th percentile. */
    method Get95Line() returns (d: nat)
      ensures d == Statistics.Percentile(samples, 95)
    {
      d := GetDurationAt(95);
    }

    /** `getAverageDiff`: this build's average minus the last build's; without
        a last build the baseline is an empty report, whose statistics are 0. */
    function GetAverageDiff(): (diff: int)
      reads this, lastBuild
      requires ValidWithLast()
      ensures diff == Statistics.Average(samples) - Statistics.Average(LastSamples())
      ensures lastBuild == null ==> diff == Statistics.Average(samples)
    {
      GetAverage() - (if lastBuild == null then 0 else lastBuild.GetAverage())
    }

    /** `getMedianDiff`: this build's median minus the last build's. */
    method GetMedianDiff() returns (diff: int)
      ensures diff == Statistics.Percentile(samples, 50) - Statistics.Percentile(LastSamples(), 50)
      ensures lastBuild == null ==> diff == Statistics.Percentile(samples, 50)
    {
      var current := GetMedian();
      var previous := 0;
      if lastBuild != null {
        previous := lastBuild.GetMedian();
      }
      diff := current as int - previous as int;
    }

    /** `getErrorPercentDiff`: this build's error percentage minus the last
        build's. */
    function GetErrorPercentDiff(): (diff: real)
      reads this, lastBuild
      requires ValidWithLast()
      ensures diff == Statistics.ErrorPercent(samples) - Statistics.ErrorPercent(LastSamples())
      ensures lastBuild == null ==> diff == Statistics.ErrorPercent(samples)
      ensures -100.0 <= diff <= 100.0
    {
      Statistics.ErrorPercentBounds(LastSamples());
      ErrorPercent() - (if lastBuild == null then 0.0 else lastBuild.ErrorPercent())
    }

    /** `getSamplesCountDiff`: this build's sample count minus the last
        build's, positive when there are more samples than before. */
    function GetSamplesCountDiff(): (diff: int)
      reads this, lastBuild
      requires ValidWithLast()
      ensures diff == |samples| - |LastSamples()|
      ensures lastBuild == null ==> diff == |samples|
    {
      SamplesCount() - (if lastBuild == null then 0 else lastBuild.SamplesCount())
    }
  }
}
