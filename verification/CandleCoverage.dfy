/** Stored observations against the buckets that overlap open sessions
    (kaupo/data/xstocks_refresh.py). */
module CandleCoverage {
  import opened Domain
  import opened Keys
  import opened MarketCalendar

  datatype Status = Complete | ScheduledClosed | Missing | ScheduleMismatch

  datatype Coverage = Coverage(status: Status, expected: nat, observed: nat, missing: nat, unexpected: nat,
                               firstObserved: Option<int>, lastObserved: Option<int>, missingSample: seq<int>)

  const SAMPLE := 10

  function Observed(timestamps: seq<int>, start: int, end: int): set<int> {
    set ts | ts in timestamps && start <= ts < end
  }

  /** The expected buckets, found by asking each one for its open time. */
  method ExpectedBuckets(s: TradingSchedule, step: int, start: int, end: int) returns (expected: set<int>)
    requires step > 0 && Lawful(s) && start < end && Aligned(start, step) && Aligned(end, step)
    ensures expected == OpenBuckets(s, step, start, end)
  {
    expected := {};
    var ts := start;
    while ts < end
      invariant start <= ts <= end && Aligned(ts, step)
      invariant expected == OpenBuckets(s, step, start, ts)
    {
      AlignedApart(ts, end, step);
      AlignedSteps(ts, step);
      OneMoreBucket(s, step, start, ts + step);
      var elapsed := OpenElapsed(s, ts, ts + step, None);
      if elapsed > 0 {
        expected := expected + {ts};
      }
      ts := ts + step;
    }
  }

  ghost predicate Bounds(first: Option<int>, last: Option<int>, observed: set<int>) {
    && (first.None? <==> observed == {}) && (last.None? <==> observed == {})
    && (first.Some? ==> IsMin(observed, first.value))
    && (last.Some? ==> last.value in observed && forall ts :: ts in observed ==> ts <= last.value)
  }

  /** The earliest few. */
  function Sample(sorted: seq<int>): seq<int> {
    if |sorted| <= SAMPLE then sorted else sorted[..SAMPLE]
  }

  /** The earliest and the latest observation, if there is any. */
  method FirstAndLast(observed: set<int>) returns (first: Option<int>, last: Option<int>)
    ensures Bounds(first, last, observed)
  {
    var sorted := SortKeys(observed);
    SortedKeysAre(observed);
    if sorted == [] {
      HasNoElement(observed);
      return None, None;
    }
    first, last := Some(sorted[0]), Some(sorted[|sorted| - 1]);
    assert sorted[0] in sorted && sorted[|sorted| - 1] in sorted;
    forall ts | ts in observed ensures sorted[0] <= ts <= sorted[|sorted| - 1] {
      assert ts in sorted;
      var k :| 0 <= k < |sorted| && sorted[k] == ts;
    }
  }

  lemma {:induction false} HasNoElement(keys: set<int>)
    requires |SortedKeys(keys)| == 0
    ensures keys == {}
  {
    SortedKeysAre(keys);
  }

  /** What a report means, in terms of the schedule alone. */
  ghost predicate Reports(c: Coverage, expected: set<int>, observed: set<int>) {
    && c.expected == |expected| && c.observed == |observed|
    && c.missing == |expected - observed| && c.unexpected == |observed - expected|
    && (c.status.ScheduleMismatch? <==> !(observed <= expected))
    && (c.status.Missing? <==> observed <= expected && observed != expected)
    && (c.status.ScheduledClosed? <==> observed == expected == {})
    && (c.status.Complete? <==> observed == expected && expected != {})
    && Bounds(c.firstObserved, c.lastObserved, observed)
    && c.missingSample == Sample(SortedKeys(expected - observed))
  }

  /** Coverage compares the stored timestamps with exactly the buckets that hold open time,
      and its expected count times the candle length is the expanded open time: the two
      users of the calendar measure the same thing. */
  method Cover(s: TradingSchedule, timestamps: seq<int>, step: int, start: int, end: int)
    returns (r: Option<Coverage>)
    requires step > 0 && Lawful(s)
    ensures r.None? <==> start >= end || start % step != 0 || end % step != 0
    ensures r.Some? ==> Reports(r.value, OpenBuckets(s, step, start, end), Observed(timestamps, start, end))
    ensures r.Some? ==> r.value.expected * step == OpenMeasure(s, Some(step), start, end)
    ensures r.Some? && r.value.status.Complete?
        ==> r.value.observed * step == OpenMeasure(s, Some(step), start, end) > 0
  {
    if start >= end || start % step != 0 || end % step != 0 {
      return None;
    }
    AlignedIsDivisible(start, step);
    AlignedIsDivisible(end, step);
    var expected := ExpectedBuckets(s, step, start, end);
    var observed := Observed(timestamps, start, end);
    var missing, unexpected := expected - observed, observed - expected;
    var status := Complete;
    if unexpected != {} {
      status := ScheduleMismatch;
    } else if missing != {} {
      status := Missing;
    } else if expected == {} {
      status := ScheduledClosed;
    }
    ExpandedMeasureCountsBuckets(s, step, start, end);
    StatusMeans(expected, observed);
    TimesPositive(|expected|, step);
    var first, last := FirstAndLast(observed);
    var sorted := SortKeys(missing);
    r := Some(Coverage(status, |expected|, |observed|, |missing|, |unexpected|, first, last, Sample(sorted)));
  }

  lemma StatusMeans(expected: set<int>, observed: set<int>)
    ensures observed - expected == {} <==> observed <= expected
    ensures expected - observed == {} <==> expected <= observed
    ensures observed <= expected && expected <= observed <==> observed == expected
  {
    if observed - expected == {} {
      forall ts | ts in observed ensures ts in expected {
        assert ts !in observed - expected;
      }
    }
    if expected - observed == {} {
      forall ts | ts in expected ensures ts in observed {
        assert ts !in expected - observed;
      }
    }
  }

  lemma TimesPositive(n: nat, step: int)
    requires step > 0
    ensures n > 0 ==> n * step > 0
  {}
}
