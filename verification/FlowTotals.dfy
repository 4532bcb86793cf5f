/** What each reported bucket of the trade flow adds up to, counted over the ticks by trade time and
    side (kaupo/core/orderflow.py:68-112). */
module FlowTotals {
  import opened Domain
  import opened OrderFlow
  import opened Keys
  import MarketCalendar

  /** A tick of one side traded in [lo, hi). */
  predicate Of(t: Row<Trade>, side: Side, lo: int, hi: int) {
    lo <= t.ts < hi && t.body.side == side
  }

  function Count(ticks: seq<Row<Trade>>, side: Side, lo: int, hi: int): nat {
    if ticks == [] then 0 else (if Of(ticks[0], side, lo, hi) then 1 else 0) + Count(ticks[1..], side, lo, hi)
  }

  function Volume(ticks: seq<Row<Trade>>, side: Side, lo: int, hi: int): real {
    if ticks == [] then 0.0
    else (if Of(ticks[0], side, lo, hi) then ticks[0].body.size else 0.0) + Volume(ticks[1..], side, lo, hi)
  }

  /** The largest size traded in [lo, hi), or 0 when none is larger. */
  ghost predicate Largest(x: real, ticks: seq<Row<Trade>>, lo: int, hi: int) {
    && x >= 0.0
    && (forall t :: t in ticks && lo <= t.ts < hi ==> t.body.size <= x)
    && (x == 0.0 || exists t :: t in ticks && lo <= t.ts < hi && t.body.size == x)
  }

  ghost predicate Describes(f: Flow, ticks: seq<Row<Trade>>, lo: int, hi: int) {
    && f.buyCount == Count(ticks, Buy, lo, hi)
    && f.sellCount == Count(ticks, Sell, lo, hi)
    && f.buyVolume == Volume(ticks, Buy, lo, hi)
    && f.sellVolume == Volume(ticks, Sell, lo, hi)
    && Largest(f.maxTradeSize, ticks, lo, hi)
  }

  lemma {:induction false} TotalsGrow(ticks: seq<Row<Trade>>, t: Row<Trade>, side: Side, lo: int, hi: int)
    ensures Count(ticks + [t], side, lo, hi) == Count(ticks, side, lo, hi) + (if Of(t, side, lo, hi) then 1 else 0)
    ensures Volume(ticks + [t], side, lo, hi)
         == Volume(ticks, side, lo, hi) + (if Of(t, side, lo, hi) then t.body.size else 0.0)
  {
    if ticks == [] {
      assert ticks + [t] == [t] && [t][1..] == [];
    } else {
      assert (ticks + [t])[1..] == ticks[1..] + [t];
      TotalsGrow(ticks[1..], t, side, lo, hi);
    }
  }

  lemma LargestGrows(x: real, ticks: seq<Row<Trade>>, t: Row<Trade>, lo: int, hi: int)
    requires Largest(x, ticks, lo, hi)
    ensures lo <= t.ts < hi ==> Largest(Max(x, t.body.size), ticks + [t], lo, hi)
    ensures !(lo <= t.ts < hi) ==> Largest(x, ticks + [t], lo, hi)
  {
    assert t in ticks + [t];
    assert forall u :: u in ticks + [t] <==> u in ticks || u == t;
    assert forall u :: u in ticks ==> u in ticks + [t];
  }

  /** A bucket is the candle-long range from a boundary. */
  lemma {:induction false} BucketIsRange(ts: int, b: int, step: int)
    requires step > 0 && MarketCalendar.Aligned(b, step)
    ensures MarketCalendar.FloorTo(ts, step) == b <==> b <= ts < b + step
  {
    if b <= ts < b + step {
      MarketCalendar.FloorInBucket(b, ts, step);
    }
  }

  lemma {:induction false} BucketDescribes(ticks: seq<Row<Trade>>, b: int, step: int)
    requires step > 0 && MarketCalendar.Aligned(b, step)
    ensures Describes(Summary(InBucket(ticks, b, step)), ticks, b, b + step)
  {
    if ticks != [] {
      var init, t := ticks[..|ticks| - 1], ticks[|ticks| - 1];
      assert ticks == init + [t];
      BucketDescribes(init, b, step);
      BucketGrows(init, t, b, step);
    }
  }

  lemma {:induction false} BucketGrows(init: seq<Row<Trade>>, t: Row<Trade>, b: int, step: int)
    requires step > 0 && MarketCalendar.Aligned(b, step)
    requires Describes(Summary(InBucket(init, b, step)), init, b, b + step)
    ensures Describes(Summary(InBucket(init + [t], b, step)), init + [t], b, b + step)
  {
    BucketIsRange(t.ts, b, step);
    TotalsGrow(init, t, Buy, b, b + step);
    TotalsGrow(init, t, Sell, b, b + step);
    InBucketGrows(init, t, b, step);
    LargestGrows(Summary(InBucket(init, b, step)).maxTradeSize, init, t, b, b + step);
    if b <= t.ts < b + step {
      SummaryGrows(InBucket(init, b, step), t.body);
    } else {
      assert InBucket(init, b, step) + [] == InBucket(init, b, step);
    }
  }

  // ----- the whole series -----

  lemma {:induction false} TotalsSplit(ticks: seq<Row<Trade>>, side: Side, lo: int, mid: int, hi: int)
    requires lo <= mid <= hi
    ensures Count(ticks, side, lo, hi) == Count(ticks, side, lo, mid) + Count(ticks, side, mid, hi)
    ensures Volume(ticks, side, lo, hi) == Volume(ticks, side, lo, mid) + Volume(ticks, side, mid, hi)
  {
    if ticks != [] {
      TotalsSplit(ticks[1..], side, lo, mid, hi);
    }
  }

  predicate Quiet(ticks: seq<Row<Trade>>, lo: int, hi: int) {
    forall t :: t in ticks ==> !(lo <= t.ts < hi)
  }

  lemma {:induction false} QuietTotals(ticks: seq<Row<Trade>>, side: Side, lo: int, hi: int)
    requires Quiet(ticks, lo, hi)
    ensures Count(ticks, side, lo, hi) == 0 && Volume(ticks, side, lo, hi) == 0.0
  {
    if ticks != [] {
      assert ticks[0] in ticks;
      QuietTotals(ticks[1..], side, lo, hi);
    }
  }

  function SeriesCount(flows: seq<TickFlow>, side: Side): nat {
    if flows == [] then 0
    else (if side.Buy? then flows[0].flow.buyCount else flows[0].flow.sellCount) + SeriesCount(flows[1..], side)
  }

  function SeriesVolume(flows: seq<TickFlow>, side: Side): real {
    if flows == [] then 0.0
    else (if side.Buy? then flows[0].flow.buyVolume else flows[0].flow.sellVolume) + SeriesVolume(flows[1..], side)
  }

  /** Buckets one after the other, each describing its own ticks, with no tick between two of them
      or between the last one and `end`. */
  ghost predicate Covers(flows: seq<TickFlow>, ticks: seq<Row<Trade>>, step: nat, end: int) {
    flows != [] ==>
      var lo, hi := flows[0].ts, flows[0].ts + step;
      var next := if |flows| > 1 then flows[1].ts else end;
      && hi <= next && Describes(flows[0].flow, ticks, lo, hi) && Quiet(ticks, hi, next)
      && Covers(flows[1..], ticks, step, end)
  }

  lemma {:induction false} CoveredTotals(flows: seq<TickFlow>, ticks: seq<Row<Trade>>, side: Side, step: nat, end: int)
    requires flows != [] && Covers(flows, ticks, step, end)
    ensures flows[0].ts <= end
    ensures SeriesCount(flows, side) == Count(ticks, side, flows[0].ts, end)
    ensures SeriesVolume(flows, side) == Volume(ticks, side, flows[0].ts, end)
  {
    var lo, hi := flows[0].ts, flows[0].ts + step;
    var next := if |flows| > 1 then flows[1].ts else end;
    if |flows| > 1 {
      CoveredTotals(flows[1..], ticks, side, step, end);
    }
    QuietTotals(ticks, side, hi, next);
    TotalsSplit(ticks, side, hi, next, end);
    TotalsSplit(ticks, side, lo, hi, end);
    if |flows| == 1 {
      assert flows[1..] == [];
      TotalsSplit(ticks, side, hi, end, end);
    }
  }

  /** A tick in a closed bucket past the first of `starts` lies in one of them. */
  ghost predicate Reaches(starts: seq<int>, ticks: seq<Row<Trade>>, step: int, end: int)
    requires step > 0
  {
    && Increasing(starts)
    && (forall b :: b in starts ==> MarketCalendar.Aligned(b, step) && b + step <= end)
    && (forall t, k :: t in ticks && 0 <= k < |starts| && starts[k] <= t.ts < end ==>
          MarketCalendar.FloorTo(t.ts, step) in starts)
  }

  ghost predicate EachDescribes(flows: seq<TickFlow>, starts: seq<int>, ticks: seq<Row<Trade>>, step: int) {
    |flows| == |starts|
    && forall k :: 0 <= k < |flows| ==>
         flows[k].ts == starts[k] && Describes(flows[k].flow, ticks, flows[k].ts, flows[k].ts + step)
  }

  lemma {:induction false} SeriesCovers(starts: seq<int>, ticks: seq<Row<Trade>>, flows: seq<TickFlow>, step: nat,
                                        end: int)
    requires step > 0 && Reaches(starts, ticks, step, end) && EachDescribes(flows, starts, ticks, step)
    ensures Covers(flows, ticks, step, end)
  {
    if flows != [] {
      FirstIsFollowed(starts, ticks, step, end);
      TailReaches(starts, ticks, step, end);
      TailDescribes(flows, starts, ticks, step);
      SeriesCovers(starts[1..], ticks, flows[1..], step, end);
      assert flows[0].ts == starts[0] && (|flows| > 1 ==> flows[1].ts == starts[1]);
    }
  }

  lemma TailDescribes(flows: seq<TickFlow>, starts: seq<int>, ticks: seq<Row<Trade>>, step: int)
    requires flows != [] && EachDescribes(flows, starts, ticks, step)
    ensures EachDescribes(flows[1..], starts[1..], ticks, step)
  {}

  lemma TailReaches(starts: seq<int>, ticks: seq<Row<Trade>>, step: int, end: int)
    requires step > 0 && starts != [] && Reaches(starts, ticks, step, end)
    ensures Reaches(starts[1..], ticks, step, end)
  {
    forall t, k | t in ticks && 0 <= k < |starts[1..]| && starts[1..][k] <= t.ts < end
      ensures MarketCalendar.FloorTo(t.ts, step) in starts[1..]
    {
      var b := MarketCalendar.FloorTo(t.ts, step);
      assert starts[k + 1] <= t.ts < end;
      BucketIsRange(t.ts, starts[0], step);
      MarketCalendar.AlignedApart(starts[0], starts[k + 1], step);
      assert b in starts && b != starts[0];
    }
  }

  lemma FirstIsFollowed(starts: seq<int>, ticks: seq<Row<Trade>>, step: int, end: int)
    requires step > 0 && starts != [] && Reaches(starts, ticks, step, end)
    ensures var next := if |starts| > 1 then starts[1] else end;
            starts[0] + step <= next && Quiet(ticks, starts[0] + step, next)
  {
    var next := if |starts| > 1 then starts[1] else end;
    assert starts[0] in starts && (|starts| > 1 ==> starts[1] in starts);
    if |starts| > 1 {
      MarketCalendar.AlignedApart(starts[0], starts[1], step);
    }
    forall t | t in ticks ensures !(starts[0] + step <= t.ts < next) {
      if starts[0] + step <= t.ts < next {
        assert next <= end && starts[0] <= t.ts < end;
        var j :| 0 <= j < |starts| && starts[j] == MarketCalendar.FloorTo(t.ts, step);
        assert false;
      }
    }
  }

  ghost predicate Tells(f: TickFlow, b: int, ticks: seq<Row<Trade>>, step: int)
    requires step > 0
  {
    f == TickFlow(b, Summary(InBucket(ticks, b, step)))
  }

  lemma OneDescribes(f: TickFlow, b: int, ticks: seq<Row<Trade>>, step: int)
    requires step > 0 && MarketCalendar.Aligned(b, step) && Tells(f, b, ticks, step)
    ensures f.ts == b && Describes(f.flow, ticks, b, b + step)
  {
    BucketDescribes(ticks, b, step);
  }

  lemma AllDescribe(flows: seq<TickFlow>, starts: seq<int>, ticks: seq<Row<Trade>>, step: int)
    requires step > 0 && |flows| == |starts|
    requires forall k :: 0 <= k < |starts| ==> MarketCalendar.Aligned(starts[k], step)
    requires forall k :: 0 <= k < |starts| ==> Tells(flows[k], starts[k], ticks, step)
    ensures EachDescribes(flows, starts, ticks, step)
  {
    forall k | 0 <= k < |starts|
      ensures flows[k].ts == starts[k] && Describes(flows[k].flow, ticks, flows[k].ts, flows[k].ts + step)
    {
      OneDescribes(flows[k], starts[k], ticks, step);
    }
  }

  lemma {:induction false} SeriesTells(starts: seq<int>, ticks: seq<Row<Trade>>, step: int)
    requires step > 0
    ensures |Described(starts, ticks, step)| == |starts|
    ensures forall k :: 0 <= k < |starts| ==> Tells(Described(starts, ticks, step)[k], starts[k], ticks, step)
  {
    if starts != [] {
      SeriesTells(starts[..|starts| - 1], ticks, step);
    }
  }

  /** Each bucket of the flow counts the buys and sells traded in it and carries its largest trade;
      together the buckets hold exactly the ticks from the first one's start to the last candle
      boundary at or before the clock, so no tick is lost, counted twice or put on the other side. */
  lemma {:induction false} FlowIsItsTicks(ticks: seq<Row<Trade>>, n: int, now: int, step: nat, side: Side)
    requires step > 0
    ensures var flows := FlowSeries(ticks, n, now, step);
            && (forall k :: 0 <= k < |flows| ==>
                  flows[k].ts + step <= now && Describes(flows[k].flow, ticks, flows[k].ts, flows[k].ts + step))
            && (flows != [] ==>
                  var end := now / step * step;
                  && SeriesCount(flows, side) == Count(ticks, side, flows[0].ts, end)
                  && SeriesVolume(flows, side) == Volume(ticks, side, flows[0].ts, end))
  {
    var flows := FlowSeries(ticks, n, now, step);
    if flows != [] {
      var starts := Last(SortedKeys(ClosedBuckets(ticks, now, step)), n);
      StartsReach(ticks, n, now, step);
      forall k | 0 <= k < |starts| ensures MarketCalendar.Aligned(starts[k], step) && starts[k] + step <= now {
        assert starts[k] in starts;
      }
      SeriesTells(starts, ticks, step);
      AllDescribe(flows, starts, ticks, step);
      var end := MarketCalendar.FloorTo(now, step);
      MarketCalendar.FloorToDivides(now, step);
      SeriesCovers(starts, ticks, flows, step, end);
      CoveredTotals(flows, ticks, side, step, end);
    }
  }

  lemma {:induction false} ClosedByBoundary(b: int, now: int, step: int)
    requires step > 0 && MarketCalendar.Aligned(b, step)
    ensures b + step <= now <==> b + step <= MarketCalendar.FloorTo(now, step)
  {
    MarketCalendar.AlignedSteps(b, step);
    MarketCalendar.FloorReaches(b, now, step);
  }

  lemma {:induction false} StartsReach(ticks: seq<Row<Trade>>, n: nat, now: int, step: int)
    requires step > 0 && n > 0
    ensures Reaches(Last(SortedKeys(ClosedBuckets(ticks, now, step)), n), ticks, step,
                    MarketCalendar.FloorTo(now, step))
  {
    var closed, end := ClosedBuckets(ticks, now, step), MarketCalendar.FloorTo(now, step);
    SortedKeysAre(closed);
    LastElements(SortedKeys(closed), n);
    var starts := Last(SortedKeys(closed), n);
    forall b | b in starts ensures MarketCalendar.Aligned(b, step) && b + step <= end {
      assert b in closed;
      ClosedIsAligned(ticks, now, step, b);
      ClosedByBoundary(b, now, step);
    }
    forall t, k | t in ticks && 0 <= k < |starts| && starts[k] <= t.ts < end
      ensures MarketCalendar.FloorTo(t.ts, step) in starts
    {
      var b := MarketCalendar.FloorTo(t.ts, step);
      assert starts[k] in starts;
      TickIsClosed(ticks, t, now, step);
      MarketCalendar.FloorMonotone(starts[k], t.ts, step);
      assert b in SortedKeys(closed);
    }
  }

  lemma ClosedIsAligned(ticks: seq<Row<Trade>>, now: int, step: int, b: int)
    requires step > 0 && b in ClosedBuckets(ticks, now, step)
    ensures MarketCalendar.Aligned(b, step) && b + step <= now
  {
    var i :| 0 <= i < |ticks| && MarketCalendar.FloorTo(ticks[i].ts, step) == b && b + step <= now;
    MarketCalendar.FloorIsAligned(ticks[i].ts, step);
  }

  lemma {:induction false} TickIsClosed(ticks: seq<Row<Trade>>, t: Row<Trade>, now: int, step: int)
    requires step > 0 && t in ticks && t.ts < MarketCalendar.FloorTo(now, step)
    ensures MarketCalendar.FloorTo(t.ts, step) in ClosedBuckets(ticks, now, step)
  {
    var i :| 0 <= i < |ticks| && ticks[i] == t;
    var b := MarketCalendar.FloorTo(t.ts, step);
    MarketCalendar.FloorIsAligned(t.ts, step);
    MarketCalendar.FloorIsAligned(now, step);
    MarketCalendar.AlignedApart(b, MarketCalendar.FloorTo(now, step), step);
  }
}
