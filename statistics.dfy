/** The statistics a `UriReport` derives from its samples, as functions of the
    sample list, and the properties they have. */
module Statistics {
  import opened Samples

  /** `countErrors`: the number of samples whose `successful` flag is false;
      at most every sample is an error. */
  function CountErrors(s: seq<Sample>): (errors: nat)
    ensures errors <= |s|
  {
    if s == [] then 0
    else CountErrors(s[..|s| - 1]) + (if s[|s| - 1].successful then 0 else 1)
  }

  /** Sum of the durations. */
  function TotalDuration(s: seq<Sample>): (total: nat)
  {
    if s == [] then 0 else TotalDuration(s[..|s| - 1]) + s[|s| - 1].duration
  }

  /** `getAverage`: the mean of the durations rounded down, the largest `avg`
      with `avg * N <= total`; 0 without samples. */
  function Average(s: seq<Sample>): (avg: nat)
    ensures |s| == 0 ==> avg == 0
    ensures |s| > 0 ==> |s| * avg <= TotalDuration(s) < |s| * avg + |s|
  {
    if |s| == 0 then 0
    else
      DivMod(TotalDuration(s), |s|);
      TotalDuration(s) / |s|
  }

  /** `errorPercent`: the percentage `pct` with `pct * N == 100 * errors`,
      exactly; 0 without samples. */
  function ErrorPercent(s: seq<Sample>): (pct: real)
    ensures |s| == 0 ==> pct == 0.0
    ensures |s| > 0 ==> pct * |s| as real == (100 * CountErrors(s)) as real
  {
    if |s| == 0 then 0.0 else (100 * CountErrors(s)) as real / |s| as real
  }

  /** The durations in list order. */
  function Durations(s: seq<Sample>): (ds: seq<nat>)
  {
    seq(|s|, i requires 0 <= i < |s| => s[i].duration)
  }

  /** The durations of the samples in comparator order. */
  function SortedDurations(s: seq<Sample>): (ds: seq<nat>)
  {
    Durations(Sort(s))
  }

  /** Index of percentile `p` (an integer percent) among `n` sorted durations:
      floor(n * p / 100) - 1, clamped to the list. This is not nearest rank:
      for n = 3 and p = 50 it is 0. */
  function PercentileIndex(n: nat, p: nat): (k: nat)
    requires n > 0
    ensures k < n
  {
    var raw := n * p / 100 - 1;
    if raw < 0 then 0 else if raw > n - 1 then n - 1 else raw
  }

  /** `getDurationAt`: the duration at the percentile index of the sorted
      durations; 0 without samples. It is always an observed duration, never
      an interpolated value. */
  function Percentile(s: seq<Sample>, p: nat): (d: nat)
    ensures |s| == 0 ==> d == 0
    ensures |s| > 0 ==> exists k :: 0 <= k < |s| && d == s[k].duration
  {
    if |s| == 0 then 0
    else
      SortedDurationsSpec(s);
      SortedDurations(s)[PercentileIndex(|s|, p)]
  }

  // ---------------------------------------------------------------------------
  // Appending one sample (what lets a report keep running totals)
  // ---------------------------------------------------------------------------

  lemma AppendTotals(s: seq<Sample>, x: Sample)
    ensures TotalDuration(s + [x]) == TotalDuration(s) + x.duration
    ensures CountErrors(s + [x]) == CountErrors(s) + (if x.successful then 0 else 1)
  {
  }

  // ---------------------------------------------------------------------------
  // Errors
  // ---------------------------------------------------------------------------

  /** `isFailed()`: some error was counted exactly when some sample is
      unsuccessful. */
  lemma {:induction false} FailedIffUnsuccessful(s: seq<Sample>)
    ensures CountErrors(s) > 0 <==> exists i :: 0 <= i < |s| && !s[i].successful
  {
    if s != [] {
      var init := s[..|s| - 1];
      FailedIffUnsuccessful(init);
      if exists i :: 0 <= i < |init| && !init[i].successful {
        var i :| 0 <= i < |init| && !init[i].successful;
        assert !s[i].successful;
      }
      if exists i :: 0 <= i < |s| && !s[i].successful {
        var i :| 0 <= i < |s| && !s[i].successful;
        if i < |init| {
          assert !init[i].successful;
        }
      }
    }
  }

  /** The error percentage lies in [0, 100], is 0 exactly when no sample
      failed, and is 100 exactly when every sample failed. */
  lemma ErrorPercentBounds(s: seq<Sample>)
    ensures 0.0 <= ErrorPercent(s) <= 100.0
    ensures ErrorPercent(s) == 0.0 <==> CountErrors(s) == 0
    ensures s != [] ==> (ErrorPercent(s) == 100.0 <==> CountErrors(s) == |s|)
  {
    if |s| > 0 {
      PercentOf(CountErrors(s) as real, |s| as real);
    }
  }

  lemma PercentOf(e: real, n: real)
    requires 0.0 <= e <= n && n > 0.0
    ensures 0.0 <= 100.0 * e / n <= 100.0
    ensures 100.0 * e / n == 0.0 <==> e == 0.0
    ensures 100.0 * e / n == 100.0 <==> e == n
  {
    var pct := 100.0 * e / n;
    assert pct * n == 100.0 * e;
  }

  // ---------------------------------------------------------------------------
  // Average
  // ---------------------------------------------------------------------------

  lemma {:induction false} TotalDurationBounds(s: seq<Sample>, lo: nat, hi: nat)
    requires forall i :: 0 <= i < |s| ==> lo <= s[i].duration <= hi
    ensures |s| * lo <= TotalDuration(s) <= |s| * hi
  {
    if s != [] {
      TotalDurationBounds(s[..|s| - 1], lo, hi);
    }
  }

  /** The average lies between the smallest and the largest duration. */
  lemma AverageBetweenMinAndMax(s: seq<Sample>, lo: nat, hi: nat)
    requires s != []
    requires forall i :: 0 <= i < |s| ==> lo <= s[i].duration <= hi
    ensures lo <= Average(s) <= hi
  {
    TotalDurationBounds(s, lo, hi);
    var n := |s|;
    var t := TotalDuration(s);
    assert n * lo <= t;
    assert Average(s) == t / n;
    DivBounds(t, n, lo, hi);
  }

  lemma DivBounds(t: nat, n: nat, lo: nat, hi: nat)
    requires n > 0 && n * lo <= t <= n * hi
    ensures lo <= t / n <= hi
  {
    var q := t / n;
    DivMod(t, n);
    if q < lo {
      MulSucc(n, q);
      MulMonotone(n, q + 1, lo);
    }
    if q > hi {
      MulSucc(n, hi);
      MulMonotone(n, hi + 1, q);
    }
  }

  lemma DivMod(t: nat, n: nat)
    requires n > 0
    ensures t == n * (t / n) + t % n && 0 <= t % n < n
  {
  }

  lemma MulSucc(n: nat, a: nat)
    ensures n * (a + 1) == n * a + n
  {
  }

  lemma MulMonotone(n: nat, a: nat, b: nat)
    requires a <= b
    ensures n * a <= n * b
  {
  }

  lemma DivMonotone(a: nat, b: nat, d: nat)
    requires a <= b && d > 0
    ensures a / d <= b / d
  {
    DivMod(a, d);
    DivMod(b, d);
    if a / d > b / d {
      MulSucc(d, b / d);
      MulMonotone(d, b / d + 1, a / d);
    }
  }

  // ---------------------------------------------------------------------------
  // Percentiles
  // ---------------------------------------------------------------------------

  lemma DurationsConcat(a: seq<Sample>, b: seq<Sample>)
    ensures Durations(a + b) == Durations(a) + Durations(b)
  {
  }

  /** Inserting a sample adds exactly its duration to the durations. */
  lemma {:induction false} DurationsInsert(x: Sample, t: seq<Sample>)
    ensures multiset(Durations(Insert(x, t))) == multiset(Durations(t)) + multiset{x.duration}
  {
    if t == [] {
      assert Durations([x]) == [x.duration];
    } else {
      assert t == [t[0]] + t[1..];
      DurationsConcat([t[0]], t[1..]);
      assert Durations([t[0]]) == [t[0].duration];
      if Precedes(x, t[0]) {
        DurationsConcat([x], t);
        assert Durations([x]) == [x.duration];
      } else {
        DurationsInsert(x, t[1..]);
        DurationsConcat([t[0]], Insert(x, t[1..]));
      }
    }
  }

  /** Sorting rearranges the durations: the same multiset before and after. */
  lemma {:induction false} DurationsSort(s: seq<Sample>)
    ensures multiset(SortedDurations(s)) == multiset(Durations(s))
  {
    if s != [] {
      DurationsSort(s[1..]);
      DurationsInsert(s[0], Sort(s[1..]));
      assert s == [s[0]] + s[1..];
      DurationsConcat([s[0]], s[1..]);
      assert Durations([s[0]]) == [s[0].duration];
    }
  }

  /** The sorted durations ascend and are a permutation of the samples'
      durations, so each of them is some sample's duration. */
  lemma SortedDurationsSpec(s: seq<Sample>)
    ensures |SortedDurations(s)| == |s|
    ensures multiset(SortedDurations(s)) == multiset(Durations(s))
    ensures forall i, j :: 0 <= i <= j < |s| ==> SortedDurations(s)[i] <= SortedDurations(s)[j]
    ensures forall i :: 0 <= i < |s| ==> exists k :: 0 <= k < |s| && SortedDurations(s)[i] == s[k].duration
  {
    var t := Sort(s);
    SortSpec(s);
    DurationsSort(s);
    forall i, j | 0 <= i <= j < |s| ensures SortedDurations(s)[i] <= SortedDurations(s)[j] {
      if i < j {
        PrecedesDuration(t[i], t[j]);
      }
    }
    forall i | 0 <= i < |s| ensures exists k :: 0 <= k < |s| && SortedDurations(s)[i] == s[k].duration {
      assert t[i] in multiset(t);
      assert t[i] in multiset(s);
      var k :| 0 <= k < |s| && s[k] == t[i];
      assert SortedDurations(s)[i] == s[k].duration;
    }
  }

  /** Every duration of the samples appears in the sorted durations. */
  lemma SortedDurationsCover(s: seq<Sample>, k: nat)
    requires k < |s|
    ensures exists i :: 0 <= i < |s| && SortedDurations(s)[i] == s[k].duration
  {
    var t := Sort(s);
    SortSpec(s);
    assert s[k] in multiset(s);
    assert s[k] in multiset(t);
    var i :| 0 <= i < |t| && t[i] == s[k];
    assert SortedDurations(s)[i] == s[k].duration;
  }

  /** A larger percent never gives a smaller percentile. */
  lemma PercentileMonotone(s: seq<Sample>, p: nat, q: nat)
    requires p <= q
    ensures Percentile(s, p) <= Percentile(s, q)
  {
    if s != [] {
      SortedDurationsSpec(s);
      MulMonotone(|s|, p, q);
      DivMonotone(|s| * p, |s| * q, 100);
    }
  }

  /** The 100th percentile is the largest duration, and any percent below
      200 / N (for instance the median of one or three samples) gives the
      smallest. */
  lemma PercentileExtremes(s: seq<Sample>, p: nat)
    requires s != []
    ensures forall k :: 0 <= k < |s| ==> s[k].duration <= Percentile(s, 100)
    ensures |s| * p < 200 ==> forall k :: 0 <= k < |s| ==> Percentile(s, p) <= s[k].duration
  {
    SortedDurationsSpec(s);
    forall k | 0 <= k < |s|
      ensures s[k].duration <= Percentile(s, 100)
      ensures |s| * p < 200 ==> Percentile(s, p) <= s[k].duration
    {
      SortedDurationsCover(s, k);
    }
  }

  // ---------------------------------------------------------------------------
  // An empty sample list
  // ---------------------------------------------------------------------------

  /** Without samples every statistic is 0 and nothing has failed. */
  lemma EmptyIdentities(p: nat)
    ensures CountErrors([]) == 0 && TotalDuration([]) == 0
    ensures Average([]) == 0 && Percentile([], p) == 0
    ensures ErrorPercent([]) == 0.0
  {
  }
}
