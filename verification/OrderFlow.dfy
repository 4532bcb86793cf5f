/** The incremental tick and book caches and the bucketed trade flow (kaupo/core/orderflow.py).

    A table is its rows in the store's order; each query reads the table of that moment. */
module OrderFlow {
  import opened Domain
  import opened Keys
  import opened MarketCalendar

  datatype Row<+T> = Row(ts: int, body: T)

  predicate Sorted<T>(rows: seq<Row<T>>) {
    forall i, j :: 0 <= i < j < |rows| ==> rows[i].ts <= rows[j].ts
  }

  /** `rows[-n:]`: the last n rows, and every row when n is 0. */
  function Slice<T>(rows: seq<T>, n: nat): seq<T> {
    if n == 0 || |rows| <= n then rows else rows[|rows| - n..]
  }

  /** The last n rows. */
  function Last<T>(rows: seq<T>, n: nat): seq<T> {
    if |rows| <= n then rows else rows[|rows| - n..]
  }

  // ----- queries -----

  predicate Within(ts: int, start: Option<int>, now: int) {
    (start.None? || start.value <= ts) && ts <= now
  }

  /** The rows of [start, now], oldest first. */
  function Window<T>(rows: seq<Row<T>>, start: Option<int>, now: int): seq<Row<T>> {
    if rows == [] then []
    else (if Within(rows[0].ts, start, now) then [rows[0]] else [])
         + Window(rows[1..], start, now)
  }

  /** The newest `cap` rows at or before `now`. */
  function Newest<T>(rows: seq<Row<T>>, now: int, cap: nat): seq<Row<T>> {
    Last(Window(rows, None, now), cap)
  }

  /** The rows older than `start`. */
  function Below<T>(rows: seq<Row<T>>, start: int): seq<Row<T>> {
    if rows == [] then []
    else (if rows[0].ts < start then [rows[0]] else []) + Below(rows[1..], start)
  }

  lemma {:induction false} WindowElements<T>(rows: seq<Row<T>>, start: Option<int>, now: int)
    requires Sorted(rows)
    ensures Sorted(Window(rows, start, now))
    ensures forall i :: 0 <= i < |Window(rows, start, now)| ==> Within(Window(rows, start, now)[i].ts, start, now)
    ensures forall i ::
        0 <= i < |Window(rows, start, now)| ==> rows != [] && rows[0].ts <= Window(rows, start, now)[i].ts
  {
    if rows != [] {
      WindowElements(rows[1..], start, now);
      assert rows[1..] != [] ==> rows[0].ts <= rows[1..][0].ts;
    }
  }

  lemma {:induction false} NothingBelow<T>(rows: seq<Row<T>>, start: int)
    requires Sorted(rows) && (rows != [] ==> start <= rows[0].ts)
    ensures Below(rows, start) == [] && (forall now :: Window(rows, Some(start), now) == Window(rows, None, now))
  {
    if rows != [] {
      assert rows[1..] != [] ==> rows[0].ts <= rows[1..][0].ts;
      NothingBelow(rows[1..], start);
    }
  }

  /** A table splits at `start` into what is older and what the refresh reads again. */
  lemma {:induction false} SplitAt<T>(rows: seq<Row<T>>, start: int, now: int)
    requires Sorted(rows) && start <= now
    ensures Window(rows, None, now) == Below(rows, start) + Window(rows, Some(start), now)
  {
    if rows != [] {
      if start <= rows[0].ts {
        NothingBelow(rows, start);
      } else {
        SplitAt(rows[1..], start, now);
      }
    }
  }

  /** Before a newer clock reading the window is cut off at the newest row. */
  lemma {:induction false} WindowBound<T>(rows: seq<Row<T>>, start: Option<int>, now: int, bound: int)
    requires forall i :: 0 <= i < |rows| && rows[i].ts <= now ==> rows[i].ts <= bound
    requires bound <= now
    ensures Window(rows, start, now) == Window(rows, start, bound)
  {
    if rows != [] {
      WindowBound(rows[1..], start, now, bound);
    }
  }

  lemma {:induction false} BelowPrefix<T>(rows: seq<Row<T>>, start: int, cut: nat)
    requires Sorted(rows) && cut <= |rows|
    requires cut > 0 ==> rows[cut - 1].ts < start
    requires cut < |rows| ==> start <= rows[cut].ts
    ensures Below(rows, start) == rows[..cut]
  {
    if cut == 0 {
      NothingBelow(rows, start);
    } else {
      assert rows[0].ts <= rows[cut - 1].ts;
      BelowPrefix(rows[1..], start, cut - 1);
      assert rows[..cut] == [rows[0]] + rows[1..][..cut - 1];
    }
  }

  // ----- the incremental refresh -----

  /** Whether the next update merges over the cache instead of loading it anew. */
  predicate Resumes<T>(cached: seq<Row<T>>, now: int) {
    cached != [] && cached[|cached| - 1].ts <= now
  }

  /** Where it starts reading. */
  function RefreshStart<T>(cached: seq<Row<T>>, window: nat): int
    requires cached != []
  {
    cached[|cached| - 1].ts - window
  }

  function Merged<T>(cached: seq<Row<T>>, rows: seq<Row<T>>, start: int, now: int, cap: nat): seq<Row<T>> {
    Slice(Below(cached, start) + Window(rows, Some(start), now), cap)
  }

  function Refreshed<T>(cached: seq<Row<T>>, rows: seq<Row<T>>, now: int, cap: nat, window: nat): seq<Row<T>> {
    if Resumes(cached, now) then Merged(cached, rows, RefreshStart(cached, window), now, cap)
    else Newest(rows, now, cap)
  }

  /** Re-read the recent window and merge it over the cache tail. */
  method Refresh<T>(cached: seq<Row<T>>, rows: seq<Row<T>>, now: int, cap: nat, window: nat)
    returns (r: seq<Row<T>>)
    requires Sorted(cached)
    ensures r == Refreshed(cached, rows, now, cap, window)
  {
    if cached == [] || cached[|cached| - 1].ts > now {
      return Newest(rows, now, cap);
    }
    var start := cached[|cached| - 1].ts - window;
    var recent := Window(rows, Some(start), now);
    var cut := |cached|;
    while cut > 0 && cached[cut - 1].ts >= start
      invariant 0 <= cut <= |cached|
      invariant cut < |cached| ==> start <= cached[cut].ts
    {
      cut := cut - 1;
    }
    BelowPrefix(cached, start, cut);
    r := Slice(cached[..cut] + recent, cap);
  }

  lemma LastAppend<T>(a: seq<T>, b: seq<T>, n: nat)
    ensures Last(a + b, n) == if |b| >= n then Last(b, n) else Last(a, n - |b|) + b
  {}

  lemma LastOfLast<T>(a: seq<T>, n: nat, m: nat)
    requires n <= m
    ensures Last(Last(a, m), n) == Last(a, n)
  {}

  lemma {:induction false} SortedSuffix<T>(rows: seq<Row<T>>, now: int, cap: nat)
    requires Sorted(rows)
    ensures Sorted(Newest(rows, now, cap))
  {
    WindowElements(rows, None, now);
  }

  /** How many rows the refresh reads again. */
  function Reread<T>(rows: seq<Row<T>>, start: int, now: int): nat {
    |Window(rows, Some(start), now)|
  }

  predicate AllBelow<T>(rows: seq<Row<T>>, start: int) {
    forall i :: 0 <= i < |rows| ==> rows[i].ts < start
  }

  predicate AllFrom<T>(rows: seq<Row<T>>, start: int) {
    forall i :: 0 <= i < |rows| ==> start <= rows[i].ts
  }

  lemma {:induction false} BelowConcat<T>(older: seq<Row<T>>, recent: seq<Row<T>>, start: int)
    requires AllBelow(older, start) && AllFrom(recent, start)
    ensures Below(older + recent, start) == older
  {
    if older != [] {
      assert (older + recent)[1..] == older[1..] + recent;
      BelowConcat(older[1..], recent, start);
    } else {
      assert older + recent == recent;
      AllRecent(recent, start);
    }
  }

  lemma {:induction false} AllRecent<T>(recent: seq<Row<T>>, start: int)
    requires AllFrom(recent, start)
    ensures Below(recent, start) == []
  {
    if recent != [] {
      AllRecent(recent[1..], start);
    }
  }

  /** How many of `cap` places a block of `taken` leaves free. */
  function Room(taken: nat, cap: nat): nat {
    if cap <= taken then 0 else cap - taken
  }

  lemma NewestSplits<T>(older: seq<T>, recent: seq<T>, cap: nat)
    ensures Last(older + recent, cap) == Last(older, Room(|recent|, cap)) + Last(recent, cap)
  {
    LastAppend(older, recent, cap);
  }

  lemma {:induction false} BelowNewest<T>(older: seq<Row<T>>, recent: seq<Row<T>>, cap: nat, start: int)
    requires AllBelow(older, start) && AllFrom(recent, start)
    ensures Below(Last(older + recent, cap), start) == Last(older, Room(|recent|, cap))
  {
    NewestSplits(older, recent, cap);
    BelowConcat(Last(older, Room(|recent|, cap)), Last(recent, cap), start);
  }

  /** The older part of an exact cache. */
  lemma {:induction false} CachedBelow<T>(prior: seq<Row<T>>, asOf: int, cap: nat, start: int)
    requires Sorted(prior) && start <= asOf
    ensures Below(Newest(prior, asOf, cap), start) == Last(Below(prior, start), Room(Reread(prior, start, asOf), cap))
  {
    SplitAt(prior, start, asOf);
    BelowElements(prior, start);
    WindowElements(prior, Some(start), asOf);
    BelowNewest(Below(prior, start), Window(prior, Some(start), asOf), cap, start);
  }

  lemma {:induction false} BelowElements<T>(rows: seq<Row<T>>, start: int)
    ensures AllBelow(Below(rows, start), start)
  {
    if rows != [] {
      BelowElements(rows[1..], start);
    }
  }

  /** The rows the merge takes from the cache are the ones the table holds now. */
  ghost predicate TailUnchanged<T>(prior: seq<Row<T>>, rows: seq<Row<T>>, start: int, now: int, cap: nat) {
    var n := Room(Reread(rows, start, now), cap);
    Last(Below(rows, start), n) == Last(Below(prior, start), n)
  }

  /** The re-read range has not lost rows since. */
  predicate KeepsRecent<T>(prior: seq<Row<T>>, asOf: int, rows: seq<Row<T>>, start: int, now: int) {
    Reread(prior, start, asOf) <= Reread(rows, start, now)
  }

  /** From an exact cache, the refresh equals the direct query exactly when the older rows the
      query still needs are unchanged. */
  lemma RefreshIsExact<T>(prior: seq<Row<T>>, asOf: int, cached: seq<Row<T>>, rows: seq<Row<T>>, now: int, cap: nat,
                          window: nat, start: int)
    requires Sorted(prior) && Sorted(rows)
    requires cached == Newest(prior, asOf, cap) && Resumes(cached, now) && start == RefreshStart(cached, window)
    requires KeepsRecent(prior, asOf, rows, start, now)
    ensures Refreshed(cached, rows, now, cap, window) == Newest(rows, now, cap)
       <==> TailUnchanged(prior, rows, start, now, cap)
  {
    NewestInTime(prior, asOf, cap);
    CachedBelow(prior, asOf, cap, start);
    MergeFrom(prior, asOf, rows, start, now, cap);
    assert Refreshed(cached, rows, now, cap, window) == Merged(cached, rows, start, now, cap);
  }

  lemma NewestInTime<T>(rows: seq<Row<T>>, now: int, cap: nat)
    requires Sorted(rows) && Newest(rows, now, cap) != []
    ensures cap > 0 && Newest(rows, now, cap)[|Newest(rows, now, cap)| - 1].ts <= now
  {
    WindowElements(rows, None, now);
  }

  lemma {:induction false} MergeFrom<T>(prior: seq<Row<T>>, asOf: int, rows: seq<Row<T>>, start: int, now: int,
                                        cap: nat)
    requires Sorted(rows) && start <= now && cap > 0 && KeepsRecent(prior, asOf, rows, start, now)
    ensures Slice(Last(Below(prior, start), Room(Reread(prior, start, asOf), cap))
                  + Window(rows, Some(start), now), cap)
         == Newest(rows, now, cap)
       <==> TailUnchanged(prior, rows, start, now, cap)
  {
    SplitAt(rows, start, now);
    var m, n := Room(Reread(prior, start, asOf), cap), Room(Reread(rows, start, now), cap);
    MergeIsExact(Last(Below(prior, start), m), Below(rows, start), Window(rows, Some(start), now), cap);
    LastOfLast(Below(prior, start), n, m);
  }

  /** Merging the re-read rows over an older part needs only as much of it as the cap has room for. */
  lemma MergeIsExact<T>(cached: seq<T>, older: seq<T>, recent: seq<T>, cap: nat)
    requires cap > 0
    ensures Slice(cached + recent, cap) == Last(older + recent, cap)
       <==> Last(cached, Room(|recent|, cap)) == Last(older, Room(|recent|, cap))
  {
    var n := Room(|recent|, cap);
    NewestSplits(cached, recent, cap);
    NewestSplits(older, recent, cap);
    SameBefore(Last(cached, n), Last(older, n), Last(recent, cap));
  }

  lemma SameBefore<T>(a: seq<T>, b: seq<T>, c: seq<T>)
    ensures a + c == b + c <==> a == b
  {
    if a + c == b + c {
      assert |a| == |b|;
      assert (a + c)[..|a|] == a && (b + c)[..|b|] == b;
    }
  }

  // ----- runs of updates over a growing table -----

  /** Rows are only added. */
  ghost predicate Grows<T(!new)>(prior: seq<T>, rows: seq<T>) {
    prior == []
    || (rows != [] && ((prior[0] == rows[0] && Grows(prior[1..], rows[1..])) || Grows(prior, rows[1..])))
  }

  lemma {:induction false} GrowingWindow<T(!new)>(prior: seq<Row<T>>, rows: seq<Row<T>>, start: int, asOf: int,
                                           now: int)
    requires Grows(prior, rows) && asOf <= now
    ensures Reread(prior, start, asOf) <= Reread(rows, start, now)
    decreases |rows|
  {
    if prior != [] {
      if prior[0] == rows[0] && Grows(prior[1..], rows[1..]) {
        GrowingWindow(prior[1..], rows[1..], start, asOf, now);
      } else {
        GrowingWindow(prior, rows[1..], start, asOf, now);
      }
    }
  }

  /** One update: the table it reads and the clock. */
  datatype Update<+T> = Update(rows: seq<Row<T>>, now: int)

  /** Between two updates rows are only added, none of them older than the refresh start. */
  ghost predicate LandsInWindow<T(!new)>(prior: Update<T>, next: Update<T>, cap: nat, window: nat) {
    var cached := Newest(prior.rows, prior.now, cap);
    && Grows(prior.rows, next.rows)
    && (Resumes(cached, next.now) ==>
          Below(next.rows, RefreshStart(cached, window)) == Below(prior.rows, RefreshStart(cached, window)))
  }

  ghost predicate Orderly<T(!new)>(updates: seq<Update<T>>, cap: nat, window: nat) {
    && (forall k :: 0 <= k < |updates| ==> Sorted(updates[k].rows))
    && (forall k :: 0 < k < |updates| ==> LandsInWindow(updates[k - 1], updates[k], cap, window))
  }

  function CacheAfter<T>(updates: seq<Update<T>>, cap: nat, window: nat): seq<Row<T>> {
    if updates == [] then []
    else
      var u := updates[|updates| - 1];
      Refreshed(CacheAfter(updates[..|updates| - 1], cap, window), u.rows, u.now, cap, window)
  }

  lemma OrderlyRefresh<T(!new)>(prior: Update<T>, next: Update<T>, cap: nat, window: nat)
    requires Sorted(prior.rows) && Sorted(next.rows) && LandsInWindow(prior, next, cap, window)
    ensures Refreshed(Newest(prior.rows, prior.now, cap), next.rows, next.now, cap, window)
         == Newest(next.rows, next.now, cap)
  {
    var cached := Newest(prior.rows, prior.now, cap);
    if Resumes(cached, next.now) {
      var start, newest := RefreshStart(cached, window), cached[|cached| - 1].ts;
      NewestRowBounds(prior.rows, prior.now, cap);
      WindowBound(prior.rows, Some(start), prior.now, newest);
      GrowingWindow(prior.rows, next.rows, start, newest, next.now);
      RefreshIsExact(prior.rows, prior.now, cached, next.rows, next.now, cap, window, start);
    }
  }

  lemma {:induction false} NewestRowBounds<T>(rows: seq<Row<T>>, now: int, cap: nat)
    requires Sorted(rows) && Newest(rows, now, cap) != []
    ensures var newest := Newest(rows, now, cap)[|Newest(rows, now, cap)| - 1].ts;
            newest <= now && forall i :: 0 <= i < |rows| && rows[i].ts <= now ==> rows[i].ts <= newest
  {
    var all := Window(rows, None, now);
    WindowElements(rows, None, now);
    forall i | 0 <= i < |rows| && rows[i].ts <= now ensures rows[i].ts <= all[|all| - 1].ts {
      InWindow(rows, now, i);
      var j :| 0 <= j < |all| && all[j] == rows[i];
    }
  }

  lemma {:induction false} InWindow<T>(rows: seq<Row<T>>, now: int, i: nat)
    requires i < |rows| && rows[i].ts <= now
    ensures rows[i] in Window(rows, None, now)
  {
    if i > 0 {
      InWindow(rows[1..], now, i - 1);
    }
  }

  /** In every orderly run the cache equals the newest `cap` rows at or before the clock,
      after every update, whichever way the clock moves. */
  lemma {:induction false} CacheIsDirectQuery<T(!new)>(updates: seq<Update<T>>, cap: nat, window: nat)
    requires updates != [] && Orderly(updates, cap, window)
    ensures CacheAfter(updates, cap, window)
         == Newest(updates[|updates| - 1].rows, updates[|updates| - 1].now, cap)
  {
    var n := |updates| - 1;
    if n == 0 {
      assert updates[..0] == [];
    } else {
      CacheIsDirectQuery(updates[..n], cap, window);
      assert LandsInWindow(updates[n - 1], updates[n], cap, window);
      OrderlyRefresh(updates[n - 1], updates[n], cap, window);
    }
  }

  /** A row that lands older than the refresh window is missed. */
  lemma LateRowIsMissed()
    ensures var prior := [Row(0, "a"), Row(5000, "b")];
            var rows := [Row(0, "a"), Row(100, "late"), Row(5000, "b")];
            && Grows(prior, rows)
            && Refreshed(Newest(prior, 5000, 2), rows, 6000, 2, 10) == prior
            && Newest(rows, 6000, 2) == rows[1..]
  {
    var a, late, b := Row(0, "a"), Row(100, "late"), Row(5000, "b");
    assert [a, b][1..] == [b] && [a, late, b][1..] == [late, b] && [late, b][1..] == [b] && [b][1..] == [];
    assert Grows([b], [b]) && Grows([b], [late, b]);
    assert Window([b], None, 5000) == [b] == Window([b], None, 6000);
    assert Window([a, b], None, 5000) == [a, b];
    assert Window([late, b], None, 6000) == [late, b];
    assert Window([a, late, b], None, 6000) == [a, late, b];
    assert Window([b], Some(4990), 6000) == [b] && Window([late, b], Some(4990), 6000) == [b];
    assert Window([a, late, b], Some(4990), 6000) == [b];
    assert Below([b], 4990) == [] && Below([a, b], 4990) == [a];
  }

  // ----- bucketed trade flow -----

  datatype Trade = Trade(side: Side, size: real)

  /** The running totals of one bucket. */
  datatype Flow = Flow(buyCount: nat, sellCount: nat, buyVolume: real, sellVolume: real, maxTradeSize: real)

  datatype TickFlow = TickFlow(ts: int, flow: Flow)

  const NO_FLOW := Flow(0, 0, 0.0, 0.0, 0.0)

  function Counted(f: Flow, t: Trade): Flow {
    var f' := if t.side.Buy? then f.(buyCount := f.buyCount + 1, buyVolume := f.buyVolume + t.size)
              else f.(sellCount := f.sellCount + 1, sellVolume := f.sellVolume + t.size);
    f'.(maxTradeSize := Max(f.maxTradeSize, t.size))
  }

  /** The ticks whose trade time falls in the bucket opening at `b`. */
  function InBucket(ticks: seq<Row<Trade>>, b: int, step: int): seq<Trade>
    requires step > 0
  {
    if ticks == [] then []
    else
      var t := ticks[|ticks| - 1];
      InBucket(ticks[..|ticks| - 1], b, step) + (if FloorTo(t.ts, step) == b then [t.body] else [])
  }

  function Summary(trades: seq<Trade>): Flow {
    if trades == [] then NO_FLOW
    else Counted(Summary(trades[..|trades| - 1]), trades[|trades| - 1])
  }

  /** The buckets with a tick that have closed by `now`. */
  function ClosedBuckets(ticks: seq<Row<Trade>>, now: int, step: int): set<int>
    requires step > 0
  {
    set i | 0 <= i < |ticks| && FloorTo(ticks[i].ts, step) + step <= now :: FloorTo(ticks[i].ts, step)
  }

  /** Each bucket with its own ticks' totals. */
  function Described(starts: seq<int>, ticks: seq<Row<Trade>>, step: int): (r: seq<TickFlow>)
    requires step > 0
    ensures |r| == |starts|
    ensures forall k :: 0 <= k < |r| ==> r[k] == TickFlow(starts[k], Summary(InBucket(ticks, starts[k], step)))
  {
    if starts == [] then []
    else
      var last := |starts| - 1;
      Described(starts[..last], ticks, step) + [TickFlow(starts[last], Summary(InBucket(ticks, starts[last], step)))]
  }

  /** The flow series: the newest n closed buckets in order. */
  ghost function FlowSeries(ticks: seq<Row<Trade>>, n: int, now: int, step: int): seq<TickFlow>
    requires step > 0
  {
    if n <= 0 then [] else Described(Last(SortedKeys(ClosedBuckets(ticks, now, step)), n), ticks, step)
  }

  /** The accumulators after a prefix of the ticks. */
  ghost predicate Accumulated(buckets: map<int, Flow>, ticks: seq<Row<Trade>>, now: int, step: int)
    requires step > 0
  {
    && buckets.Keys == ClosedBuckets(ticks, now, step)
    && (forall b :: b in buckets ==> buckets[b] == Summary(InBucket(ticks, b, step)))
  }

  lemma {:induction false} BucketsGrow(ticks: seq<Row<Trade>>, t: Row<Trade>, now: int, step: int)
    requires step > 0
    ensures ClosedBuckets(ticks + [t], now, step)
         == ClosedBuckets(ticks, now, step) + (if FloorTo(t.ts, step) + step <= now then {FloorTo(t.ts, step)} else {})
  {
    var all := ticks + [t];
    assert all[|ticks|] == t;
    forall x | x in ClosedBuckets(ticks, now, step) ensures x in ClosedBuckets(all, now, step) {
      var j :| 0 <= j < |ticks| && FloorTo(ticks[j].ts, step) + step <= now && x == FloorTo(ticks[j].ts, step);
      assert all[j] == ticks[j];
    }
  }

  lemma {:induction false} InBucketGrows(ticks: seq<Row<Trade>>, t: Row<Trade>, b: int, step: int)
    requires step > 0
    ensures InBucket(ticks + [t], b, step)
         == InBucket(ticks, b, step) + (if FloorTo(t.ts, step) == b then [t.body] else [])
  {
    assert (ticks + [t])[..|ticks|] == ticks;
  }

  lemma {:induction false} SummaryGrows(trades: seq<Trade>, t: Trade)
    ensures Summary(trades + [t]) == Counted(Summary(trades), t)
  {
    assert (trades + [t])[..|trades|] == trades;
  }

  lemma {:induction false} EmptyBucket(ticks: seq<Row<Trade>>, b: int, now: int, step: int)
    requires step > 0 && b !in ClosedBuckets(ticks, now, step) && b + step <= now
    ensures InBucket(ticks, b, step) == []
  {
    if ticks != [] {
      var last := |ticks| - 1;
      BucketsGrow(ticks[..last], ticks[last], now, step);
      assert ticks[..last] + [ticks[last]] == ticks;
      EmptyBucket(ticks[..last], b, now, step);
    }
  }

  /** The accumulators after one more tick. */
  function Tallied(buckets: map<int, Flow>, t: Row<Trade>, now: int, step: int): map<int, Flow>
    requires step > 0
  {
    var b := FloorTo(t.ts, step);
    if b + step > now then buckets
    else buckets[b := Counted(if b in buckets then buckets[b] else NO_FLOW, t.body)]
  }

  lemma Accumulate(buckets: map<int, Flow>, ticks: seq<Row<Trade>>, t: Row<Trade>, now: int, step: int)
    requires step > 0 && Accumulated(buckets, ticks, now, step)
    ensures Accumulated(Tallied(buckets, t, now, step), ticks + [t], now, step)
  {
    var b := FloorTo(t.ts, step);
    var after := Tallied(buckets, t, now, step);
    BucketsGrow(ticks, t, now, step);
    forall x | x in after ensures after[x] == Summary(InBucket(ticks + [t], x, step)) {
      InBucketGrows(ticks, t, x, step);
      if x != b {
        assert InBucket(ticks, x, step) + [] == InBucket(ticks, x, step);
      } else {
        if b !in buckets {
          EmptyBucket(ticks, b, now, step);
        }
        SummaryGrows(InBucket(ticks, b, step), t.body);
      }
    }
  }

  /** Aggregate ticks into per-candle buckets; the candle in progress never leaks. */
  method BucketTickFlow(ticks: seq<Row<Trade>>, n: int, now: int, step: int) returns (flows: seq<TickFlow>)
    requires step > 0
    ensures flows == FlowSeries(ticks, n, now, step)
  {
    if n <= 0 {
      return [];
    }
    var buckets: map<int, Flow> := map[];
    for i := 0 to |ticks|
      invariant Accumulated(buckets, ticks[..i], now, step)
    {
      Accumulate(buckets, ticks[..i], ticks[i], now, step);
      assert ticks[..i] + [ticks[i]] == ticks[..i + 1];
      var b := FloorTo(ticks[i].ts, step);
      if b + step > now {
        continue;
      }
      if b !in buckets {
        buckets := buckets[b := NO_FLOW];
      }
      buckets := buckets[b := Counted(buckets[b], ticks[i].body)];
    }
    assert ticks[..|ticks|] == ticks;
    flows := NewestFlows(ticks, buckets, n, now, step);
  }

  method NewestStarts(keys: set<int>, n: nat) returns (starts: seq<int>)
    requires n > 0
    ensures starts == Last(SortedKeys(keys), n)
    ensures forall k :: 0 <= k < |starts| ==> starts[k] in keys
  {
    var all := SortKeys(keys);
    SortedKeysAre(keys);
    starts := Slice(all, n);
    LastElements(all, n);
  }

  method NewestFlows(ghost ticks: seq<Row<Trade>>, buckets: map<int, Flow>, n: nat, ghost now: int, ghost step: int)
    returns (flows: seq<TickFlow>)
    requires step > 0 && n > 0 && Accumulated(buckets, ticks, now, step)
    ensures flows == FlowSeries(ticks, n, now, step)
  {
    var starts := NewestStarts(buckets.Keys, n);
    flows := [];
    for k := 0 to |starts|
      invariant flows == Described(starts[..k], ticks, step)
    {
      DescribeNext(starts, k, ticks, step);
      flows := flows + [TickFlow(starts[k], buckets[starts[k]])];
    }
    assert starts[..|starts|] == starts;
  }

  lemma {:induction false} DescribeNext(starts: seq<int>, k: nat, ticks: seq<Row<Trade>>, step: int)
    requires step > 0 && k < |starts|
    ensures Described(starts[..k + 1], ticks, step)
         == Described(starts[..k], ticks, step) + [TickFlow(starts[k], Summary(InBucket(ticks, starts[k], step)))]
  {
    assert starts[..k + 1][..k] == starts[..k];
  }

  /** The last n of an increasing sequence: none missing between the first of them and the end. */
  lemma LastElements(s: seq<int>, n: nat)
    requires Increasing(s)
    ensures var r := Last(s, n);
            && |r| == (if |s| <= n then |s| else n) && Increasing(r)
            && (forall k :: 0 <= k < |r| ==> r[k] in s)
            && (forall x, k :: x in s && 0 <= k < |r| && r[k] < x ==> x in r)
  {
    var r := Last(s, n);
    assert forall k :: 0 <= k < |r| ==> r[k] == s[|s| - |r| + k];
    forall x, k | x in s && 0 <= k < |r| && r[k] < x ensures x in r {
      var j :| 0 <= j < |s| && s[j] == x;
      assert r[j - (|s| - |r|)] == x;
    }
  }

  /** The ticks in buckets that have closed. */
  function Visible(ticks: seq<Row<Trade>>, now: int, step: int): seq<Row<Trade>>
    requires step > 0
  {
    if ticks == [] then []
    else
      var t := ticks[|ticks| - 1];
      Visible(ticks[..|ticks| - 1], now, step) + (if FloorTo(t.ts, step) + step <= now then [t] else [])
  }

  lemma {:induction false} VisibleGrows(ticks: seq<Row<Trade>>, t: Row<Trade>, now: int, step: int)
    requires step > 0
    ensures Visible(ticks + [t], now, step)
         == (if FloorTo(t.ts, step) + step <= now then Visible(ticks, now, step) + [t] else Visible(ticks, now, step))
  {
    assert (ticks + [t])[..|ticks|] == ticks;
  }

  lemma {:induction false} VisibleKeepsClosed(ticks: seq<Row<Trade>>, now: int, step: int)
    requires step > 0
    ensures ClosedBuckets(Visible(ticks, now, step), now, step) == ClosedBuckets(ticks, now, step)
    ensures forall b :: b + step <= now ==> InBucket(Visible(ticks, now, step), b, step) == InBucket(ticks, b, step)
  {
    if ticks != [] {
      var last := |ticks| - 1;
      var init, t := ticks[..last], ticks[last];
      assert init + [t] == ticks;
      VisibleKeepsClosed(init, now, step);
      VisibleGrows(init, t, now, step);
      BucketsGrow(init, t, now, step);
      BucketsGrow(Visible(init, now, step), t, now, step);
      forall b | b + step <= now ensures InBucket(Visible(ticks, now, step), b, step) == InBucket(ticks, b, step) {
        InBucketGrows(init, t, b, step);
        InBucketGrows(Visible(init, now, step), t, b, step);
        assert InBucket(init, b, step) + [] == InBucket(init, b, step);
      }
    }
  }

  /** Tick histories that agree on the closed buckets give the same flow, whatever trades fall
      in a bucket still open at the clock. */
  lemma {:induction false} FlowIgnoresOpenBuckets(a: seq<Row<Trade>>, b: seq<Row<Trade>>, n: int, now: int, step: int)
    requires step > 0 && Visible(a, now, step) == Visible(b, now, step)
    ensures FlowSeries(a, n, now, step) == FlowSeries(b, n, now, step)
  {
    VisibleKeepsClosed(a, now, step);
    VisibleKeepsClosed(b, now, step);
    if n > 0 {
      var keys := ClosedBuckets(a, now, step);
      SortedKeysAre(keys);
      var starts := Last(SortedKeys(keys), n);
      forall k | 0 <= k < |starts| ensures InBucket(a, starts[k], step) == InBucket(b, starts[k], step) {
        assert starts[k] in SortedKeys(keys);
      }
      SameDescription(starts, a, b, step);
    }
  }

  lemma {:induction false} SameDescription(starts: seq<int>, a: seq<Row<Trade>>, b: seq<Row<Trade>>, step: int)
    requires step > 0
    requires forall k :: 0 <= k < |starts| ==> InBucket(a, starts[k], step) == InBucket(b, starts[k], step)
    ensures Described(starts, a, step) == Described(starts, b, step)
  {
    if starts != [] {
      SameDescription(starts[..|starts| - 1], a, b, step);
    }
  }

  ghost predicate Reports(flows: seq<TickFlow>, b: int) {
    exists k :: 0 <= k < |flows| && flows[k].ts == b
  }

  /** `flows` lists buckets of `closed` in order and skips none after its first. */
  ghost predicate NewestOf(flows: seq<TickFlow>, closed: set<int>) {
    && (forall i, j :: 0 <= i < j < |flows| ==> flows[i].ts < flows[j].ts)
    && (forall k :: 0 <= k < |flows| ==> flows[k].ts in closed)
    && (forall b, k :: b in closed && 0 <= k < |flows| && flows[k].ts < b ==> Reports(flows, b))
  }

  lemma {:induction false} DescribedIsNewest(starts: seq<int>, closed: set<int>, ticks: seq<Row<Trade>>, step: int)
    requires step > 0 && Increasing(starts) && (forall k :: 0 <= k < |starts| ==> starts[k] in closed)
    requires forall b, k :: b in closed && 0 <= k < |starts| && starts[k] < b ==> b in starts
    ensures NewestOf(Described(starts, ticks, step), closed)
  {
    var flows := Described(starts, ticks, step);
    forall b, k | b in closed && 0 <= k < |flows| && flows[k].ts < b ensures Reports(flows, b) {
      assert starts[k] < b;
      var m :| 0 <= m < |starts| && starts[m] == b;
      assert flows[m].ts == b;
    }
  }

  /** The newest n closed buckets, oldest first: nothing closed and newer is left out. */
  lemma FlowIsNewestClosed(ticks: seq<Row<Trade>>, n: nat, now: int, step: int)
    requires step > 0
    ensures NewestOf(FlowSeries(ticks, n, now, step), ClosedBuckets(ticks, now, step))
    ensures |FlowSeries(ticks, n, now, step)| == MinOf(n, |ClosedBuckets(ticks, now, step)|)
  {
    var closed := ClosedBuckets(ticks, now, step);
    SortedKeysAre(closed);
    LastElements(SortedKeys(closed), n);
    DescribedIsNewest(Last(SortedKeys(closed), n), closed, ticks, step);
  }

  // ----- the provider -----

  class DbOrderFlowProvider<Book(!new)> {
    const cap: nat
    const window: nat
    var ticks: map<string, seq<Row<Trade>>>
    var book: map<string, seq<Row<Book>>>

    constructor (cap: nat, window: nat)
      ensures this.cap == cap && this.window == window && ticks == map[] && book == map[]
    {
      this.cap, this.window, ticks, book := cap, window, map[], map[];
    }

    ghost predicate Valid()
      reads this
    {
      (forall p :: p in ticks ==> Sorted(ticks[p])) && (forall p :: p in book ==> Sorted(book[p]))
    }

    function TicksOf(p: string): seq<Row<Trade>>
      reads this
    {
      if p in ticks then ticks[p] else []
    }

    function BookOf(p: string): seq<Row<Book>>
      reads this
    {
      if p in book then book[p] else []
    }

    /** Refresh both series of one pair. */
    method Update(p: string, now: int, tickRows: seq<Row<Trade>>, bookRows: seq<Row<Book>>)
      requires Valid() && Sorted(tickRows) && Sorted(bookRows)
      modifies this
      ensures Valid()
      ensures ticks == old(ticks)[p := Refreshed(old(TicksOf(p)), tickRows, now, cap, window)]
      ensures book == old(book)[p := Refreshed(old(BookOf(p)), bookRows, now, cap, window)]
    {
      RefreshedIsSorted(TicksOf(p), tickRows, now, cap, window);
      RefreshedIsSorted(BookOf(p), bookRows, now, cap, window);
      var t := Refresh(TicksOf(p), tickRows, now, cap, window);
      var b := Refresh(BookOf(p), bookRows, now, cap, window);
      ticks := ticks[p := t];
      book := book[p := b];
    }

    /** The flow over the cached ticks. */
    method Flow(p: string, n: int, now: int, step: int) returns (flows: seq<TickFlow>)
      requires step > 0
      ensures flows == FlowSeries(TicksOf(p), n, now, step)
    {
      flows := BucketTickFlow(TicksOf(p), n, now, step);
    }
  }

  lemma RefreshedIsSorted<T>(cached: seq<Row<T>>, rows: seq<Row<T>>, now: int, cap: nat, window: nat)
    requires Sorted(cached) && Sorted(rows)
    ensures Sorted(Refreshed(cached, rows, now, cap, window))
  {
    SortedSuffix(rows, now, cap);
    if Resumes(cached, now) {
      var start := RefreshStart(cached, window);
      BelowIsSorted(cached, start);
      BelowElements(cached, start);
      WindowElements(rows, Some(start), now);
      MergeIsSorted(Below(cached, start), Window(rows, Some(start), now), start, cap);
    }
  }

  lemma MergeIsSorted<T>(older: seq<Row<T>>, recent: seq<Row<T>>, start: int, cap: nat)
    requires Sorted(older) && Sorted(recent)
    requires forall i :: 0 <= i < |older| ==> older[i].ts < start
    requires forall i :: 0 <= i < |recent| ==> start <= recent[i].ts
    ensures Sorted(Slice(older + recent, cap))
  {}

  lemma {:induction false} BelowIsSorted<T>(rows: seq<Row<T>>, start: int)
    requires Sorted(rows)
    ensures Sorted(Below(rows, start))
    ensures forall i :: 0 <= i < |Below(rows, start)| ==> rows != [] && rows[0].ts <= Below(rows, start)[i].ts
  {
    if rows != [] {
      BelowIsSorted(rows[1..], start);
      assert rows[1..] != [] ==> rows[0].ts <= rows[1..][0].ts;
    }
  }
}
