/** One timed request of an endpoint, the order `Collections.sort` puts samples
    in (`UriReport.Sample.compareTo`), and that sort itself. */
module Samples {

  datatype Option<T> = None | Some(value: T)

  /** A sample: an optional timestamp in milliseconds, a non-negative duration,
      an opaque response code, the success flag and the secondary error flag. */
  datatype Sample = Sample(date: Option<int>, duration: nat, httpCode: string,
                           successful: bool, errorObtained: bool)

  /** Orders two optional timestamps; an absent timestamp has a fixed rank below
      every present one, so the comparison is defined for every pair. */
  function CompareDates(a: Option<int>, b: Option<int>): (c: int)
    ensures -1 <= c <= 1
    ensures c == 0 <==> a == b
  {
    match (a, b)
    case (None, None) => 0
    case (None, Some(_)) => -1
    case (Some(_), None) => 1
    case (Some(x), Some(y)) => if x < y then -1 else if x > y then 1 else 0
  }

  /** `Sample.compareTo`: the shorter duration first; at equal durations the
      older timestamp first. The result is -1, 0 or 1. */
  function Compare(a: Sample, b: Sample): (c: int)
    ensures -1 <= c <= 1
    ensures a.duration != b.duration ==> (c < 0 <==> a.duration < b.duration)
  {
    if a.duration < b.duration then -1
    else if a.duration > b.duration then 1
    else CompareDates(a.date, b.date)
  }

  /** `a` may stand before `b` in a sorted list. */
  predicate Precedes(a: Sample, b: Sample)
  {
    Compare(a, b) <= 0
  }

  // ---------------------------------------------------------------------------
  // The comparator contract: what the tests expect, and that it is a total
  // preorder on samples, a total order on their (duration, timestamp) pairs, so
  // sorting never violates the Comparable contract.
  // ---------------------------------------------------------------------------

  /** The shorter duration sorts first, whatever the timestamps are. */
  lemma ShorterDurationFirst(a: Sample, b: Sample)
    requires a.duration < b.duration
    ensures Compare(a, b) == -1 && Compare(b, a) == 1
  {
  }

  /** At equal durations the older timestamp sorts first, and an absent
      timestamp sorts before any present one. */
  lemma OlderDateFirst(a: Sample, b: Sample)
    requires a.duration == b.duration
    requires a.date.None? || (b.date.Some? && a.date.value < b.date.value)
    requires b.date.Some?
    ensures Compare(a, b) == -1 && Compare(b, a) == 1
  {
  }

  /** Two samples compare equal exactly when their durations and timestamps are
      equal; in particular two samples without a timestamp and with equal
      durations compare as equal instead of failing. */
  lemma CompareZeroIff(a: Sample, b: Sample)
    ensures Compare(a, b) == 0 <==> a.duration == b.duration && a.date == b.date
  {
  }

  /** Swapping the arguments flips the sign: sgn(compare(x, y)) == -sgn(compare(y, x)). */
  lemma CompareAntisymmetric(a: Sample, b: Sample)
    ensures Compare(a, b) == -Compare(b, a)
    ensures -1 <= Compare(a, b) <= 1
  {
  }

  /** The order is transitive, in its strict and in its weak form. */
  lemma CompareTransitive(a: Sample, b: Sample, c: Sample)
    ensures Compare(a, b) <= 0 && Compare(b, c) <= 0 ==> Compare(a, c) <= 0
    ensures Compare(a, b) < 0 && Compare(b, c) <= 0 ==> Compare(a, c) < 0
    ensures Compare(a, b) <= 0 && Compare(b, c) < 0 ==> Compare(a, c) < 0
  {
  }

  /** Samples that compare equal compare the same way against every third one. */
  lemma CompareConsistent(a: Sample, b: Sample, c: Sample)
    requires Compare(a, b) == 0
    ensures Compare(a, c) == Compare(b, c)
  {
  }

  /** Ordering by the comparator orders by duration. */
  lemma PrecedesDuration(a: Sample, b: Sample)
    requires Precedes(a, b)
    ensures a.duration <= b.duration
  {
  }

  // ---------------------------------------------------------------------------
  // Sorting
  // ---------------------------------------------------------------------------

  ghost predicate Sorted(s: seq<Sample>)
  {
    forall i, j :: 0 <= i < j < |s| ==> Precedes(s[i], s[j])
  }

  /** Inserts `x` before the first element it precedes. */
  function Insert(x: Sample, s: seq<Sample>): (r: seq<Sample>)
    ensures |r| == |s| + 1
  {
    if s == [] then [x]
    else if Precedes(x, s[0]) then [x] + s
    else [s[0]] + Insert(x, s[1..])
  }

  /** The samples in comparator order (a stable insertion sort): the result of
      `Collections.sort` on a list holding `s`. */
  function Sort(s: seq<Sample>): (r: seq<Sample>)
    ensures |r| == |s|
  {
    if s == [] then [] else Insert(s[0], Sort(s[1..]))
  }

  /** Inserting into a sorted list keeps it sorted and adds exactly `x`. */
  lemma {:induction false} InsertSpec(x: Sample, s: seq<Sample>)
    requires Sorted(s)
    ensures Sorted(Insert(x, s))
    ensures multiset(Insert(x, s)) == multiset(s) + multiset{x}
  {
    if s == [] {
    } else if Precedes(x, s[0]) {
      forall j | 0 < j < |s| ensures Precedes(x, s[j]) {
        CompareTransitive(x, s[0], s[j]);
      }
    } else {
      var rest := Insert(x, s[1..]);
      InsertSpec(x, s[1..]);
      assert s == [s[0]] + s[1..];
      forall y | y in multiset(rest) ensures Precedes(s[0], y) {
        if y != x {
          assert y in multiset(s[1..]);
          var k :| 0 <= k < |s[1..]| && s[1..][k] == y;
          assert s[k + 1] == y;
        } else {
          CompareAntisymmetric(x, s[0]);
        }
      }
      forall j | 0 <= j < |rest| ensures Precedes(s[0], rest[j]) {
        assert rest[j] in multiset(rest);
      }
    }
  }

  /** Sorting yields a sorted rearrangement of the same samples. */
  lemma {:induction false} SortSpec(s: seq<Sample>)
    ensures Sorted(Sort(s))
    ensures multiset(Sort(s)) == multiset(s)
  {
    if s != [] {
      SortSpec(s[1..]);
      InsertSpec(s[0], Sort(s[1..]));
      assert s == [s[0]] + s[1..];
    }
  }

  /** `Collections.sort(list)`: sorts a copy, then writes it back element by
      element. The list ends up in comparator order and holds the same samples. */
  method SortSamples(a: array<Sample>)
    modifies a
    ensures a[..] == Sort(old(a[..]))
    ensures Sorted(a[..]) && multiset(a[..]) == multiset(old(a[..]))
  {
    var sorted := Sort(a[..]);
    SortSpec(a[..]);
    var i := 0;
    while i < a.Length
      invariant 0 <= i <= a.Length
      invariant sorted == Sort(old(a[..]))
      invariant a[..i] == sorted[..i]
    {
      a[i] := sorted[i];
      i := i + 1;
    }
    assert a[..] == a[..a.Length];
  }
}
