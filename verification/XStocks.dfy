/** Paged public trades and the candles rebuilt from them (kaupo/data/xstocks.py).

    Times are whole nanoseconds, like the exchange's own paging cursor. The exchange is a fixed
    log: a page holds the next trades at or after the cursor, and its cursor is the time of its
    last trade. */
module XStocks {
  import opened Domain
  import opened MarketCalendar

  datatype Trade = Trade(id: nat, ts: int, price: real, size: real, side: Side)

  /** Trades are ordered by time, then id. */
  predicate Before(a: Trade, b: Trade) {
    a.ts < b.ts || (a.ts == b.ts && a.id < b.id)
  }

  predicate InOrder(log: seq<Trade>) {
    forall i, j :: 0 <= i < j < |log| ==> Before(log[i], log[j])
  }

  /** An exchange log: ordered, and an id names one trade. */
  predicate Honest(log: seq<Trade>) {
    InOrder(log) && forall i, j :: 0 <= i < j < |log| ==> log[i].id != log[j].id
  }

  /** How many trades the exchange puts on its k-th page. */
  type PageSizes = nat -> nat

  datatype StreamError = EmptyRange | ChangedTrade | OlderTrade | CursorDidNotAdvance

  // ----- what the exchange answers -----

  /** Where the trades at or after `cursor` start. */
  function Start(log: seq<Trade>, cursor: int): (j: nat)
    ensures j <= |log|
  {
    if log == [] || cursor <= log[0].ts then 0 else 1 + Start(log[1..], cursor)
  }

  lemma {:induction false} StartBounds(log: seq<Trade>, cursor: int)
    ensures forall i :: 0 <= i < Start(log, cursor) ==> log[i].ts < cursor
    ensures Start(log, cursor) < |log| ==> cursor <= log[Start(log, cursor)].ts
  {
    if log != [] && log[0].ts < cursor {
      StartBounds(log[1..], cursor);
      assert forall i :: 0 < i < |log| ==> log[i] == log[1..][i - 1];
    }
  }

  lemma {:induction false} StartSplits(log: seq<Trade>, cursor: int, i: nat)
    requires InOrder(log) && i < |log|
    ensures i < Start(log, cursor) <==> log[i].ts < cursor
  {
    StartBounds(log, cursor);
    var j := Start(log, cursor);
    if j < i {
      assert Before(log[j], log[i]);
    }
  }

  function End(log: seq<Trade>, cursor: int, size: nat): (e: nat)
    ensures Start(log, cursor) <= e <= |log|
  {
    if Start(log, cursor) + size <= |log| then Start(log, cursor) + size else |log|
  }

  function Page(log: seq<Trade>, cursor: int, size: nat): seq<Trade> {
    log[Start(log, cursor)..End(log, cursor, size)]
  }

  function NextCursor(page: seq<Trade>, cursor: int): int {
    if page == [] then cursor else page[|page| - 1].ts
  }

  // ----- what a caller wants -----

  function InRange(log: seq<Trade>, first: int, stop: int): seq<Trade> {
    if log == [] then []
    else
      var t := log[|log| - 1];
      InRange(log[..|log| - 1], first, stop) + (if first <= t.ts < stop then [t] else [])
  }

  lemma {:induction false} InRangeAppend(a: seq<Trade>, b: seq<Trade>, first: int, stop: int)
    ensures InRange(a + b, first, stop) == InRange(a, first, stop) + InRange(b, first, stop)
  {
    if b == [] {
      assert a + b == a;
    } else {
      var init := b[..|b| - 1];
      assert (a + b)[..|a + b| - 1] == a + init;
      InRangeAppend(a, init, first, stop);
    }
  }

  lemma {:induction false} NoneInRange(log: seq<Trade>, first: int, stop: int)
    requires forall i :: 0 <= i < |log| ==> log[i].ts < first || stop <= log[i].ts
    ensures InRange(log, first, stop) == []
  {
    if log != [] {
      NoneInRange(log[..|log| - 1], first, stop);
    }
  }

  /** From a trade at or after `stop` on, nothing is in range. */
  lemma {:induction false} StopHere(log: seq<Trade>, i: nat, first: int, stop: int)
    requires InOrder(log) && i < |log| && log[i].ts >= stop
    ensures InRange(log, first, stop) == InRange(log[..i], first, stop)
  {
    assert log == log[..i] + log[i..];
    InRangeAppend(log[..i], log[i..], first, stop);
    forall k | 0 <= k < |log[i..]| ensures stop <= log[i..][k].ts {
      assert k > 0 ==> Before(log[i], log[i + k]);
    }
    NoneInRange(log[i..], first, stop);
  }

  lemma {:induction false} TakeOne(log: seq<Trade>, i: nat, first: int, stop: int)
    requires i < |log|
    ensures InRange(log[..i + 1], first, stop)
         == InRange(log[..i], first, stop) + (if first <= log[i].ts < stop then [log[i]] else [])
  {
    assert log[..i + 1][..i] == log[..i];
  }

  // ----- one page -----

  function Lookup(trades: seq<Trade>, id: nat): Option<Trade> {
    if trades == [] then None
    else if trades[|trades| - 1].id == id then Some(trades[|trades| - 1])
    else Lookup(trades[..|trades| - 1], id)
  }

  function Known(unique: seq<Trade>, previous: seq<Trade>, id: nat): Option<Trade> {
    if Lookup(unique, id).Some? then Lookup(unique, id) else Lookup(previous, id)
  }

  /** The trades of a page that neither it nor the previous page held before. */
  function NewTrades(page: seq<Trade>, previous: seq<Trade>, last: Option<Trade>): Result<seq<Trade>, StreamError> {
    if page == [] then Success([])
    else
      var t := page[|page| - 1];
      match NewTrades(page[..|page| - 1], previous, last)
      case Failure(e) => Failure(e)
      case Success(unique) =>
        match Known(unique, previous, t.id)
        case Some(known) => if known != t then Failure(ChangedTrade) else Success(unique)
        case None =>
          if last.Some? && !Before(last.value, t) then Failure(OlderTrade) else Success(unique + [t])
  }

  method Deduplicate(page: seq<Trade>, previous: seq<Trade>, last: Option<Trade>)
    returns (r: Result<seq<Trade>, StreamError>)
    ensures r == NewTrades(page, previous, last)
  {
    var unique: seq<Trade> := [];
    for i := 0 to |page|
      invariant NewTrades(page[..i], previous, last) == Success(unique)
    {
      var t := page[i];
      assert page[..i + 1][..i] == page[..i];
      var known := Known(unique, previous, t.id);
      if known.Some? && known.value != t {
        FailsForGood(page, i + 1, previous, last);
        return Failure(ChangedTrade);
      }
      if known.None? {
        if last.Some? && !Before(last.value, t) {
          FailsForGood(page, i + 1, previous, last);
          return Failure(OlderTrade);
        }
        unique := unique + [t];
      }
    }
    assert page[..|page|] == page;
    return Success(unique);
  }

  lemma {:induction false} FailsForGood(page: seq<Trade>, i: nat, previous: seq<Trade>, last: Option<Trade>)
    requires i <= |page| && NewTrades(page[..i], previous, last).Failure?
    ensures NewTrades(page, previous, last) == NewTrades(page[..i], previous, last)
    decreases |page| - i
  {
    if i == |page| {
      assert page[..i] == page;
    } else {
      assert page[..i + 1][..i] == page[..i];
      FailsForGood(page, i + 1, previous, last);
    }
  }

  lemma {:induction false} LookupFinds(trades: seq<Trade>, id: nat)
    ensures Lookup(trades, id).None? <==> forall i :: 0 <= i < |trades| ==> trades[i].id != id
    ensures Lookup(trades, id).Some? ==> Lookup(trades, id).value in trades && Lookup(trades, id).value.id == id
  {
    if trades != [] {
      LookupFinds(trades[..|trades| - 1], id);
      assert forall i :: 0 <= i < |trades| - 1 ==> trades[..|trades| - 1][i] == trades[i];
    }
  }

  lemma OverlapIsKnown(log: seq<Trade>, p: nat, m: nat, i: nat)
    requires Honest(log) && p <= i < m <= |log|
    ensures Lookup(log[p..m], log[i].id) == Some(log[i])
  {
    LookupFinds(log[p..m], log[i].id);
    assert log[p..m][i - p] == log[i];
    var known := Lookup(log[p..m], log[i].id).value;
    var k :| 0 <= k < m - p && log[p..m][k] == known;
    assert log[p + k].id == log[i].id;
  }

  lemma LaterIsUnknown(log: seq<Trade>, p: nat, m: nat, i: nat)
    requires Honest(log) && p <= m <= i < |log|
    ensures Lookup(log[p..m], log[i].id).None?
  {
    LookupFinds(log[p..m], log[i].id);
    forall k | 0 <= k < m - p ensures log[p..m][k].id != log[i].id {
      assert log[p..m][k] == log[p + k];
    }
  }

  /** The trades of log[..e] past the first m. */
  function Tail(log: seq<Trade>, m: nat, e: nat): seq<Trade>
    requires e <= |log|
  {
    if m <= e then log[m..e] else []
  }

  lemma {:induction false} KnownTrade(page: seq<Trade>, t: Trade, previous: seq<Trade>, last: Option<Trade>,
                                      unique: seq<Trade>)
    requires NewTrades(page, previous, last) == Success(unique) && Known(unique, previous, t.id) == Some(t)
    ensures NewTrades(page + [t], previous, last) == Success(unique)
  {
    assert (page + [t])[..|page|] == page;
  }

  lemma {:induction false} UnknownTrade(page: seq<Trade>, t: Trade, previous: seq<Trade>, last: Option<Trade>,
                                        unique: seq<Trade>)
    requires NewTrades(page, previous, last) == Success(unique) && Known(unique, previous, t.id).None?
    requires last.Some? ==> Before(last.value, t)
    ensures NewTrades(page + [t], previous, last) == Success(unique + [t])
  {
    assert (page + [t])[..|page|] == page;
  }

  lemma {:induction false} PageKnown(log: seq<Trade>, p: nat, j: nat, m: nat, e: nat, last: Option<Trade>)
    requires Honest(log) && p <= j < e <= m <= |log|
    requires NewTrades(log[j..e - 1], log[p..m], last) == Success([])
    ensures NewTrades(log[j..e], log[p..m], last) == Success([])
  {
    assert log[j..e] == log[j..e - 1] + [log[e - 1]];
    OverlapIsKnown(log, p, m, e - 1);
    KnownTrade(log[j..e - 1], log[e - 1], log[p..m], last, []);
  }

  lemma {:induction false} PageNew(log: seq<Trade>, p: nat, j: nat, m: nat, e: nat, last: Option<Trade>)
    requires Honest(log) && p <= j <= m < e <= |log| && last == (if p < m then Some(log[m - 1]) else None)
    requires NewTrades(log[j..e - 1], log[p..m], last) == Success(log[m..e - 1])
    ensures NewTrades(log[j..e], log[p..m], last) == Success(log[m..e])
  {
    assert log[j..e] == log[j..e - 1] + [log[e - 1]] && log[m..e] == log[m..e - 1] + [log[e - 1]];
    NewIsUnknown(log, p, m, e, last);
    UnknownTrade(log[j..e - 1], log[e - 1], log[p..m], last, log[m..e - 1]);
  }

  /** Of an honest page only the overlap with the previous one is known: the new trades are
      the ones past `m`. */
  lemma {:induction false} HonestPage(log: seq<Trade>, p: nat, j: nat, m: nat, e: nat, last: Option<Trade>)
    requires Honest(log) && p <= j <= m <= |log| && j <= e <= |log|
    requires last == (if p < m then Some(log[m - 1]) else None)
    ensures NewTrades(log[j..e], log[p..m], last) == Success(Tail(log, m, e))
    decreases e
  {
    if j == e {
      assert log[j..e] == [] && Tail(log, m, e) == [];
    } else {
      HonestPage(log, p, j, m, e - 1, last);
      if e <= m {
        assert Tail(log, m, e - 1) == [] && Tail(log, m, e) == [];
        PageKnown(log, p, j, m, e, last);
      } else {
        PageNew(log, p, j, m, e, last);
      }
    }
  }

  lemma NewIsUnknown(log: seq<Trade>, p: nat, m: nat, e: nat, last: Option<Trade>)
    requires Honest(log) && p <= m < e <= |log| && last == (if p < m then Some(log[m - 1]) else None)
    ensures Known(log[m..e - 1], log[p..m], log[e - 1].id).None?
    ensures last.Some? ==> Before(last.value, log[e - 1])
  {
    LaterIsUnknown(log, p, m, e - 1);
    LaterIsUnknown(log, m, e - 1, e - 1);
  }

  // ----- the paging walk -----

  ghost predicate Sizes(sizes: PageSizes) {
    forall k :: sizes(k) >= 1
  }

  /** No page stops at its own cursor while trades before `stop` are still unread. The walk knows
      only how far it has read (`m`) and the cursor. */
  ghost predicate NeverStuck(log: seq<Trade>, sizes: PageSizes, k: nat, cursor: int, m: nat, stop: int)
    decreases |log| - m
  {
    var e := End(log, cursor, sizes(k));
    if m >= |log| then true
    else if e <= m then log[m].ts >= stop
    else if log[e - 1].ts >= stop then true
    else cursor < log[e - 1].ts && NeverStuck(log, sizes, k + 1, log[e - 1].ts, e, stop)
  }

  /** The walk from the request that opens the range. */
  ghost predicate NeverStuckFrom(log: seq<Trade>, sizes: PageSizes, first: int, stop: int) {
    NeverStuck(log, sizes, 0, first - 1, Start(log, first - 1), stop)
  }

  /** The error the walk ends with, if any. */
  ghost function WalkError(log: seq<Trade>, sizes: PageSizes, k: nat, cursor: int, m: nat, stop: int)
    : (error: Option<StreamError>)
    ensures error.None? || error == Some(CursorDidNotAdvance)
    decreases |log| - m
  {
    var e := End(log, cursor, sizes(k));
    if m >= |log| || e <= m || log[e - 1].ts >= stop then None
    else if log[e - 1].ts <= cursor then Some(CursorDidNotAdvance)
    else WalkError(log, sizes, k + 1, log[e - 1].ts, e, stop)
  }

  /** How a walk ends: whether it reads everything in range, and with which error. */
  datatype Fate = Fate(complete: bool, error: Option<StreamError>)

  ghost function FateOf(log: seq<Trade>, sizes: PageSizes, k: nat, cursor: int, m: nat, stop: int): Fate {
    Fate(NeverStuck(log, sizes, k, cursor, m, stop), WalkError(log, sizes, k, cursor, m, stop))
  }

  /** Between two requests: everything before `m` is read, and the tie group at the cursor was
      read from the previous page. */
  ghost predicate Reading(log: seq<Trade>, first: int, stop: int, cursor: int, m: nat, p: nat, last: Option<Trade>)
  {
    && p <= Start(log, cursor) <= m <= |log|
    && (forall i :: 0 <= i < m ==> log[i].ts < stop)
    && last == (if p < m then Some(log[m - 1]) else None)
    && (if p == m then cursor == first - 1 && m == Start(log, cursor) else first <= cursor == log[m - 1].ts)
  }

  method EmitPage(unique: seq<Trade>, first: int, stop: int) returns (out: seq<Trade>, done: bool)
    requires InOrder(unique)
    ensures out == InRange(unique, first, stop)
    ensures done <==> unique != [] && unique[|unique| - 1].ts >= stop
  {
    out := [];
    for i := 0 to |unique|
      invariant out == InRange(unique[..i], first, stop)
      invariant forall j :: 0 <= j < i ==> unique[j].ts < stop
    {
      var t := unique[i];
      if t.ts >= stop {
        StopHere(unique, i, first, stop);
        assert i < |unique| - 1 ==> Before(unique[i], unique[|unique| - 1]);
        return out, true;
      }
      TakeOne(unique, i, first, stop);
      if t.ts >= first {
        out := out + [t];
      }
    }
    assert unique[..|unique|] == unique;
    done := false;
  }

  /** How a stream ends: with a prefix of the trades in range and the error of its walk, and with
      exactly the trades in range and no error precisely when the walk is not stuck. */
  ghost predicate Ends(log: seq<Trade>, first: int, stop: int, out: seq<Trade>, error: Option<StreamError>, fate: Fate)
  {
    && out <= InRange(log, first, stop) && error == fate.error
    && (error == None && out == InRange(log, first, stop) <==> fate.complete)
  }

  /** Fetch a page and keep what is new. */
  method ReadPage(log: seq<Trade>, cursor: int, size: nat, previous: seq<Trade>, last: Option<Trade>, ghost p: nat,
                  ghost m: nat) returns (page: seq<Trade>, next: int, unique: seq<Trade>)
    requires Honest(log) && p <= Start(log, cursor) <= m <= |log| && previous == log[p..m]
    requires last == (if p < m then Some(log[m - 1]) else None)
    ensures page == Page(log, cursor, size) && next == NextCursor(page, cursor)
    ensures unique == Tail(log, m, End(log, cursor, size))
    ensures page == [] <==> End(log, cursor, size) == Start(log, cursor)
    ensures page != [] ==> next == log[End(log, cursor, size) - 1].ts
    ensures unique != [] <==> m < End(log, cursor, size)
    ensures unique != [] ==> unique[|unique| - 1] == log[End(log, cursor, size) - 1]
  {
    page := Page(log, cursor, size);
    next := NextCursor(page, cursor);
    HonestPage(log, p, Start(log, cursor), m, End(log, cursor, size), last);
    var r := Deduplicate(page, previous, last);
    unique := r.value;
  }

  /** What the client keeps between two pages. */
  datatype Pager = Pager(cursor: int, previous: seq<Trade>, last: Option<Trade>, k: nat)

  /** The stream so far, between two requests. */
  ghost predicate At(log: seq<Trade>, sizes: PageSizes, first: int, stop: int, s: Pager, p: nat, m: nat,
                     out: seq<Trade>, fate: Fate)
  {
    && Reading(log, first, stop, s.cursor, m, p, s.last) && s.previous == log[p..m]
    && out == InRange(log[..m], first, stop)
    && FateOf(log, sizes, s.k, s.cursor, m, stop) == fate
  }

  /** One turn of the client's loop: `end` is how it ended, if it did. */
  method Turn(log: seq<Trade>, sizes: PageSizes, first: int, stop: int, s: Pager, before: seq<Trade>, ghost p: nat,
              ghost m: nat, ghost fate: Fate)
    returns (out: seq<Trade>, end: Option<Option<StreamError>>, s': Pager, ghost m': nat)
    requires Honest(log) && Sizes(sizes) && first < stop && At(log, sizes, first, stop, s, p, m, before, fate)
    ensures end.Some? ==> Ends(log, first, stop, out, end.value, fate)
    ensures end.None? ==> At(log, sizes, first, stop, s', Start(log, s.cursor), m', out, fate) && m < m' <= |log|
  {
    m' := End(log, s.cursor, sizes(s.k));
    s' := s;
    var page, next, unique := ReadPage(log, s.cursor, sizes(s.k), s.previous, s.last, p, m);
    ReadOn(log, m, m', first, stop);
    var emitted, done := EmitPage(unique, first, stop);
    out := before + emitted;
    if done {
      EndsReached(log, sizes, first, stop, s, p, m, before, fate);
      return out, Some(None), s', m';
    }
    var last := if unique != [] then Some(unique[|unique| - 1]) else s.last;
    if page == [] || (unique == [] && next == s.cursor) {
      EndsFinished(log, sizes, first, stop, s, p, m, before, fate);
      return out, Some(None), s', m';
    }
    NothingNewStops(log, first, stop, s.cursor, m, p, m');
    if next <= s.cursor {
      EndsStuck(log, sizes, first, stop, s, p, m, before, fate);
      return out, Some(Some(CursorDidNotAdvance)), s', m';
    }
    s' := Pager(next, page, last, s.k + 1);
    MovesOn(log, sizes, first, stop, s, p, m, before, fate);
    end := None;
  }

  lemma {:induction false} MovesOn(log: seq<Trade>, sizes: PageSizes, first: int, stop: int, s: Pager, p: nat, m: nat,
                                   before: seq<Trade>, fate: Fate)
    requires Honest(log) && Sizes(sizes) && first < stop && At(log, sizes, first, stop, s, p, m, before, fate)
    requires var e := End(log, s.cursor, sizes(s.k)); m < e && s.cursor < log[e - 1].ts < stop
    ensures var e := End(log, s.cursor, sizes(s.k));
            At(log, sizes, first, stop,
               Pager(log[e - 1].ts, Page(log, s.cursor, sizes(s.k)), Some(log[e - 1]), s.k + 1),
               Start(log, s.cursor), e, Streamed(log, m, e, first, stop, before), fate)
  {
    MovesTo(log, sizes, first, stop, s.k, s.cursor, s.last, p, m, before, Start(log, s.cursor),
            End(log, s.cursor, sizes(s.k)));
  }

  lemma {:induction false} MovesTo(log: seq<Trade>, sizes: PageSizes, first: int, stop: int, k: nat, cursor: int,
                                   last: Option<Trade>, p: nat, m: nat, before: seq<Trade>, j: nat, e: nat)
    requires Honest(log) && Reading(log, first, stop, cursor, m, p, last) && before == InRange(log[..m], first, stop)
    requires j == Start(log, cursor) && e == End(log, cursor, sizes(k)) && m < e && cursor < log[e - 1].ts < stop
    ensures At(log, sizes, first, stop, Pager(log[e - 1].ts, log[j..e], Some(log[e - 1]), k + 1), j, e,
               Streamed(log, m, e, first, stop, before), FateOf(log, sizes, k, cursor, m, stop))
  {
    StreamedTo(log, m, e, first, stop, before);
    Advances(log, first, stop, cursor, m, p, last, j, e);
    WalkOn(log, sizes, k, cursor, m, stop);
  }

  lemma {:induction false} StreamedTo(log: seq<Trade>, m: nat, e: nat, first: int, stop: int, before: seq<Trade>)
    requires m <= e <= |log| && before == InRange(log[..m], first, stop)
    ensures Streamed(log, m, e, first, stop, before) == InRange(log[..e], first, stop)
  {
    assert log[..m] + log[m..e] == log[..e];
    InRangeAppend(log[..m], log[m..e], first, stop);
  }

  lemma WalkOn(log: seq<Trade>, sizes: PageSizes, k: nat, cursor: int, m: nat, stop: int)
    requires var e := End(log, cursor, sizes(k)); m < e && cursor < log[e - 1].ts < stop
    ensures var e := End(log, cursor, sizes(k));
            FateOf(log, sizes, k, cursor, m, stop) == FateOf(log, sizes, k + 1, log[e - 1].ts, e, stop)
  {}

  function Streamed(log: seq<Trade>, m: nat, e: nat, first: int, stop: int, before: seq<Trade>): seq<Trade>
    requires e <= |log|
  {
    before + InRange(Tail(log, m, e), first, stop)
  }

  lemma EndsReached(log: seq<Trade>, sizes: PageSizes, first: int, stop: int, s: Pager, p: nat, m: nat,
                    before: seq<Trade>, fate: Fate)
    requires Honest(log) && Sizes(sizes) && first < stop && At(log, sizes, first, stop, s, p, m, before, fate)
    requires var e := End(log, s.cursor, sizes(s.k)); m < e && log[e - 1].ts >= stop
    ensures Ends(log, first, stop, Streamed(log, m, End(log, s.cursor, sizes(s.k)), first, stop, before), None, fate)
  {
    var e := End(log, s.cursor, sizes(s.k));
    ReadOn(log, m, e, first, stop);
    Reached(log, sizes, s.k, first, stop, s.cursor, m);
  }

  lemma EndsFinished(log: seq<Trade>, sizes: PageSizes, first: int, stop: int, s: Pager, p: nat, m: nat,
                     before: seq<Trade>, fate: Fate)
    requires Honest(log) && Sizes(sizes) && first < stop && At(log, sizes, first, stop, s, p, m, before, fate)
    requires End(log, s.cursor, sizes(s.k)) <= m
    ensures Ends(log, first, stop, Streamed(log, m, End(log, s.cursor, sizes(s.k)), first, stop, before), None, fate)
  {
    var e := End(log, s.cursor, sizes(s.k));
    ReadOn(log, m, e, first, stop);
    Finished(log, sizes, s.k, first, stop, s.cursor, m, p);
  }

  lemma EndsStuck(log: seq<Trade>, sizes: PageSizes, first: int, stop: int, s: Pager, p: nat, m: nat,
                  before: seq<Trade>, fate: Fate)
    requires Honest(log) && Sizes(sizes) && first < stop && At(log, sizes, first, stop, s, p, m, before, fate)
    requires var e := End(log, s.cursor, sizes(s.k)); m < e && log[e - 1].ts <= s.cursor && log[e - 1].ts < stop
    ensures Ends(log, first, stop, Streamed(log, m, End(log, s.cursor, sizes(s.k)), first, stop, before),
                 Some(CursorDidNotAdvance), fate)
  {
    StreamedPrefix(log, m, End(log, s.cursor, sizes(s.k)), first, stop, before);
    Stuck(log, sizes, s.k, first, stop, s.cursor, m);
  }

  /** What was streamed after a page is a prefix of what the range holds. */
  lemma {:induction false} StreamedPrefix(log: seq<Trade>, m: nat, e: nat, first: int, stop: int, before: seq<Trade>)
    requires m <= e <= |log| && before == InRange(log[..m], first, stop)
    ensures Streamed(log, m, e, first, stop, before) <= InRange(log, first, stop)
  {
    StreamedTo(log, m, e, first, stop, before);
    PrefixInRange(log, e, first, stop);
  }

  /** Read pages until the log or the range ends. The stream is always a prefix of the trades in
      range; it is exactly them, without an error, if and only if no page gets stuck. */
  method TradesBetween(log: seq<Trade>, sizes: PageSizes, first: int, stop: int)
    returns (out: seq<Trade>, error: Option<StreamError>)
    requires Honest(log) && Sizes(sizes) && first < stop
    ensures Ends(log, first, stop, out, error, FateOf(log, sizes, 0, first - 1, Start(log, first - 1), stop))
  {
    var s := Pager(first - 1, [], None, 0);
    out := [];
    ghost var m := Start(log, first - 1);
    ghost var p := m;
    ghost var fate := FateOf(log, sizes, 0, first - 1, m, stop);
    StartsReading(log, first, stop);
    while true
      invariant At(log, sizes, first, stop, s, p, m, out, fate)
      decreases |log| - m
    {
      ghost var j := Start(log, s.cursor);
      var end: Option<Option<StreamError>>;
      ghost var e;
      out, end, s, e := Turn(log, sizes, first, stop, s, out, p, m, fate);
      if end.Some? {
        return out, end.value;
      }
      p, m := j, e;
    }
  }

  /** New trades without a new cursor: the walk is stuck. */
  lemma Stuck(log: seq<Trade>, sizes: PageSizes, k: nat, first: int, stop: int, cursor: int, m: nat)
    requires m < End(log, cursor, sizes(k)) && log[End(log, cursor, sizes(k)) - 1].ts <= cursor
    requires log[End(log, cursor, sizes(k)) - 1].ts < stop
    ensures FateOf(log, sizes, k, cursor, m, stop) == Fate(false, Some(CursorDidNotAdvance))
  {}

  lemma StartsReading(log: seq<Trade>, first: int, stop: int)
    requires first < stop
    ensures var m := Start(log, first - 1);
            Reading(log, first, stop, first - 1, m, m, None) && InRange(log[..m], first, stop) == []
  {
    StartBounds(log, first - 1);
    NoneInRange(log[..Start(log, first - 1)], first, stop);
  }

  /** A trade at or after `stop` ends the walk with everything in range read. */
  lemma {:induction false} Reached(log: seq<Trade>, sizes: PageSizes, k: nat, first: int, stop: int, cursor: int,
                                   m: nat)
    requires Honest(log) && m < End(log, cursor, sizes(k)) && log[End(log, cursor, sizes(k)) - 1].ts >= stop
    ensures var e := End(log, cursor, sizes(k));
            InRange(log[..e], first, stop) == InRange(log, first, stop) && NeverStuck(log, sizes, k, cursor, m, stop)
  {
    var e := End(log, cursor, sizes(k));
    StopHere(log, e - 1, first, stop);
    StopHere(log[..e], e - 1, first, stop);
    assert log[..e][..e - 1] == log[..e - 1];
  }

  /** Reading a page extends the stream by its new trades. */
  lemma {:induction false} ReadOn(log: seq<Trade>, m: nat, e: nat, first: int, stop: int)
    requires Honest(log) && m <= |log| && e <= |log|
    ensures InOrder(Tail(log, m, e))
    ensures InRange(log[..m], first, stop) + InRange(Tail(log, m, e), first, stop)
         == InRange(log[..if m <= e then e else m], first, stop)
    ensures InRange(log[..if m <= e then e else m], first, stop) <= InRange(log, first, stop)
  {
    assert log[..m] + Tail(log, m, e) == log[..if m <= e then e else m];
    InRangeAppend(log[..m], Tail(log, m, e), first, stop);
    PrefixInRange(log, if m <= e then e else m, first, stop);
  }

  lemma {:induction false} PrefixInRange(log: seq<Trade>, n: nat, first: int, stop: int)
    requires n <= |log|
    ensures InRange(log[..n], first, stop) <= InRange(log, first, stop)
  {
    assert log == log[..n] + log[n..];
    InRangeAppend(log[..n], log[n..], first, stop);
  }

  /** A page with nothing new ends the walk; it is the end of the range exactly when the walk is
      not stuck there. */
  lemma {:induction false} Finished(log: seq<Trade>, sizes: PageSizes, k: nat, first: int, stop: int, cursor: int,
                                    m: nat, p: nat)
    requires Honest(log) && Sizes(sizes)
    requires Reading(log, first, stop, cursor, m, p, if p < m <= |log| then Some(log[m - 1]) else None)
    requires End(log, cursor, sizes(k)) <= m
    ensures InRange(log[..m], first, stop) == InRange(log, first, stop) <==> NeverStuck(log, sizes, k, cursor, m, stop)
  {
    StartBounds(log, cursor);
    if m >= |log| {
      assert log[..m] == log;
    } else if log[m].ts >= stop {
      StopHere(log, m, first, stop);
    } else {
      assert sizes(k) >= 1;
      assert p < m && Before(log[m - 1], log[m]);
      TakeOne(log, m, first, stop);
      PrefixInRange(log, m + 1, first, stop);
    }
  }

  /** A page that brings nothing new and is not empty ends at its own cursor. */
  lemma {:induction false} NothingNewStops(log: seq<Trade>, first: int, stop: int, cursor: int, m: nat, p: nat, e: nat)
    requires Honest(log) && p <= Start(log, cursor) < e <= |log| && m <= |log|
    requires p < m ==> cursor == log[m - 1].ts
    requires p == m ==> m == Start(log, cursor)
    ensures e <= m ==> log[e - 1].ts == cursor
  {
    if e <= m {
      assert cursor <= log[e - 1].ts by {
        StartSplits(log, cursor, e - 1);
      }
      assert e < m ==> Before(log[e - 1], log[m - 1]);
    }
  }

  lemma {:induction false} Advances(log: seq<Trade>, first: int, stop: int, cursor: int, m: nat, p: nat,
                                    last: Option<Trade>, j: nat, e: nat)
    requires Honest(log) && Reading(log, first, stop, cursor, m, p, last)
    requires j == Start(log, cursor) && m < e <= |log| && cursor < log[e - 1].ts < stop
    ensures Reading(log, first, stop, log[e - 1].ts, e, j, Some(log[e - 1]))
  {
    var next := log[e - 1].ts;
    forall i | 0 <= i < e ensures log[i].ts < stop {
      assert i < e - 1 ==> Before(log[i], log[e - 1]);
    }
    StartSplits(log, next, e - 1);
    StartGrows(log, cursor, next);
  }

  lemma {:induction false} StartGrows(log: seq<Trade>, cursor: int, next: int)
    requires InOrder(log) && cursor <= next
    ensures Start(log, cursor) <= Start(log, next)
  {
    if Start(log, next) < |log| {
      StartSplits(log, cursor, Start(log, next));
      StartSplits(log, next, Start(log, next));
    }
  }

  /** Every full page is longer than any tie group, and what a page at the end of the log could
      stop on is settled: its last time is past the range, or belongs to one trade that is not
      the one just before the range. */
  ghost predicate Separated(log: seq<Trade>, sizes: PageSizes, first: int, stop: int) {
    && (forall k: nat, i: nat :: sizes(k) >= 1 && i + sizes(k) <= |log| ==> log[i].ts < log[i + sizes(k) - 1].ts)
    && (log == [] || log[|log| - 1].ts >= stop
        || (log[|log| - 1].ts != first - 1 && (|log| > 1 ==> log[|log| - 2].ts < log[|log| - 1].ts)))
  }

  /** On such a log no page gets stuck, however the pages split. */
  lemma {:induction false} SeparatedNeverStuck(log: seq<Trade>, sizes: PageSizes, k: nat, first: int, stop: int,
                                               cursor: int, m: nat, p: nat, last: Option<Trade>)
    requires Honest(log) && Sizes(sizes) && first < stop && Separated(log, sizes, first, stop)
    requires Reading(log, first, stop, cursor, m, p, last)
    ensures NeverStuck(log, sizes, k, cursor, m, stop)
    decreases |log| - m
  {
    var e := End(log, cursor, sizes(k));
    if m < |log| {
      PageMovesOn(log, sizes, k, first, stop, cursor, m, p, last);
      if log[e - 1].ts < stop {
        Advances(log, first, stop, cursor, m, p, last, Start(log, cursor), e);
        SeparatedNeverStuck(log, sizes, k + 1, first, stop, log[e - 1].ts, e, Start(log, cursor), Some(log[e - 1]));
      }
    }
  }

  lemma NoOlder(log: seq<Trade>, a: nat, b: nat)
    requires InOrder(log) && a < |log| && b < |log|
    ensures a <= b ==> log[a].ts <= log[b].ts
  {
    assert a < b ==> Before(log[a], log[b]);
  }

  lemma PageMovesOn(log: seq<Trade>, sizes: PageSizes, k: nat, first: int, stop: int, cursor: int, m: nat, p: nat,
                    last: Option<Trade>)
    requires Honest(log) && Sizes(sizes) && first < stop && Separated(log, sizes, first, stop) && m < |log|
    requires Reading(log, first, stop, cursor, m, p, last)
    ensures var e := End(log, cursor, sizes(k)); m < e && (log[e - 1].ts >= stop || cursor < log[e - 1].ts)
  {
    var j, e, size := Start(log, cursor), End(log, cursor, sizes(k)), sizes(k);
    StartBounds(log, cursor);
    if j + size <= |log| {
      assert log[j].ts < log[j + size - 1].ts;
      StartSplits(log, cursor, j);
      if p < m {
        StartSplits(log, log[j + size - 1].ts, m - 1);
        NoOlder(log, j + size - 1, m - 1);
      }
    } else if log[|log| - 1].ts < stop && p < m {
      assert m - 1 < |log| - 2 ==> Before(log[m - 1], log[|log| - 2]);
    }
  }

  /** Paging independence: on a separated log the walk from the start never gets stuck. */
  lemma PagingIndependence(log: seq<Trade>, sizes: PageSizes, first: int, stop: int)
    requires Honest(log) && Sizes(sizes) && first < stop && Separated(log, sizes, first, stop)
    ensures NeverStuckFrom(log, sizes, first, stop)
  {
    var m := Start(log, first - 1);
    StartsReading(log, first, stop);
    SeparatedNeverStuck(log, sizes, 0, first, stop, first - 1, m, m, None);
  }

  /** A page of `n` trades from `cursor` on reaches a later time. */
  predicate PageReaches(log: seq<Trade>, cursor: int, n: nat) {
    var e := End(log, cursor, n);
    e > 0 && cursor < log[e - 1].ts
  }

  /** A page of at least `n` trades may stop in front of log[e] with more to read. */
  predicate MayStopAt(log: seq<Trade>, first: int, stop: int, n: nat, e: nat) {
    Start(log, first - 1) + n <= e < |log| && log[e].ts < stop
  }

  /** The shortest page reaches past the trades just before the range, and past the tie group of
      every trade a page may stop at. */
  ghost predicate TiesFit(log: seq<Trade>, first: int, stop: int, n: nat) {
    && (Start(log, first - 1) < |log| ==> PageReaches(log, first - 1, n))
    && (forall e: nat :: 0 < e && MayStopAt(log, first, stop, n, e) ==> PageReaches(log, log[e - 1].ts, n))
  }

  ghost predicate AtLeast(sizes: PageSizes, n: nat) {
    forall k :: sizes(k) >= n
  }

  /** A longer page reaches at least as far. */
  lemma LongerPage(log: seq<Trade>, cursor: int, n: nat, size: nat)
    requires InOrder(log) && n <= size && PageReaches(log, cursor, n)
    ensures PageReaches(log, cursor, size)
  {
    NoOlder(log, End(log, cursor, n) - 1, End(log, cursor, size) - 1);
  }

  lemma {:induction false} FittingTiesWalk(log: seq<Trade>, sizes: PageSizes, n: nat, k: nat, first: int, stop: int,
                                           cursor: int, m: nat, p: nat, last: Option<Trade>)
    requires Honest(log) && n >= 1 && AtLeast(sizes, n) && first < stop && TiesFit(log, first, stop, n)
    requires Reading(log, first, stop, cursor, m, p, last)
    requires p == m || Start(log, first - 1) + n <= m || m == |log|
    ensures NeverStuck(log, sizes, k, cursor, m, stop)
    decreases |log| - m
  {
    var e := End(log, cursor, sizes(k));
    if m < |log| {
      if log[m].ts >= stop {
        NoOlder(log, m, if m < e then e - 1 else m);
      } else {
        FittingPage(log, sizes(k), n, first, stop, cursor, m, p, last);
        if log[e - 1].ts < stop {
          Advances(log, first, stop, cursor, m, p, last, Start(log, cursor), e);
          FittingTiesWalk(log, sizes, n, k + 1, first, stop, log[e - 1].ts, e, Start(log, cursor), Some(log[e - 1]));
        }
      }
    }
  }

  lemma {:induction false} FittingPage(log: seq<Trade>, size: nat, n: nat, first: int, stop: int, cursor: int, m: nat,
                                       p: nat, last: Option<Trade>)
    requires Honest(log) && 1 <= n <= size && first < stop && TiesFit(log, first, stop, n)
    requires Reading(log, first, stop, cursor, m, p, last) && m < |log| && log[m].ts < stop
    requires p == m || Start(log, first - 1) + n <= m
    ensures var e := End(log, cursor, size);
            m < e && cursor < log[e - 1].ts && (Start(log, first - 1) + n <= e || e == |log|)
  {
    var e := End(log, cursor, size);
    if p < m {
      assert MayStopAt(log, first, stop, n, m);
      LongerPage(log, cursor, n, size);
    } else {
      LongerPage(log, cursor, n, size);
    }
  }

  /** A first page that stops at `e`, and pages of the shortest length from there on. */
  function StopAt(first: nat, n: nat): PageSizes {
    k => if k == 0 then first else n
  }

  lemma ShortPagesStick(log: seq<Trade>, n: nat, first: int, stop: int)
    requires Honest(log) && n >= 1 && first < stop && Start(log, first - 1) < |log|
    requires !PageReaches(log, first - 1, n)
    ensures !NeverStuck(log, StopAt(n, n), 0, first - 1, Start(log, first - 1), stop)
  {}

  lemma {:induction false} StopSticks(log: seq<Trade>, n: nat, first: int, stop: int, e: nat)
    requires Honest(log) && n >= 1 && first < stop && MayStopAt(log, first, stop, n, e)
    requires !PageReaches(log, log[e - 1].ts, n)
    ensures !NeverStuck(log, StopAt(e - Start(log, first - 1), n), 0, first - 1, Start(log, first - 1), stop)
  {
    var sizes, m := StopAt(e - Start(log, first - 1), n), Start(log, first - 1);
    var c := log[e - 1].ts;
    NoOlder(log, e - 1, e);
    assert End(log, first - 1, sizes(0)) == e;
    StartSplits(log, c, e - 1);
    assert !NeverStuck(log, sizes, 1, c, e, stop);
  }

  lemma FittingTiesNeverStick(log: seq<Trade>, sizes: PageSizes, n: nat, first: int, stop: int)
    requires Honest(log) && n >= 1 && AtLeast(sizes, n) && first < stop && TiesFit(log, first, stop, n)
    ensures NeverStuckFrom(log, sizes, first, stop)
  {
    var m := Start(log, first - 1);
    StartsReading(log, first, stop);
    FittingTiesWalk(log, sizes, n, 0, first, stop, first - 1, m, m, None);
  }

  /** Page sizes that get stuck. */
  lemma LongTiesStick(log: seq<Trade>, n: nat, first: int, stop: int) returns (sizes: PageSizes)
    requires Honest(log) && n >= 1 && first < stop && !TiesFit(log, first, stop, n)
    ensures AtLeast(sizes, n) && !NeverStuckFrom(log, sizes, first, stop)
  {
    var m := Start(log, first - 1);
    if m < |log| && !PageReaches(log, first - 1, n) {
      sizes := StopAt(n, n);
      ShortPagesStick(log, n, first, stop);
    } else {
      var e: nat :| 0 < e && MayStopAt(log, first, stop, n, e) && !PageReaches(log, log[e - 1].ts, n);
      sizes := StopAt(e - m, n);
      StopSticks(log, n, first, stop, e);
    }
  }

  /** No page of at least `n` trades ever gets stuck, however the pages split, if and only if pages
      of `n` trades reach past the tie groups they may stop in. */
  lemma NeverStuckExactly(log: seq<Trade>, first: int, stop: int, n: nat)
    requires Honest(log) && n >= 1 && first < stop
    ensures (forall sizes: PageSizes | AtLeast(sizes, n) :: NeverStuckFrom(log, sizes, first, stop))
        <==> TiesFit(log, first, stop, n)
  {
    if TiesFit(log, first, stop, n) {
      forall sizes: PageSizes | AtLeast(sizes, n) ensures NeverStuckFrom(log, sizes, first, stop) {
        FittingTiesNeverStick(log, sizes, n, first, stop);
      }
    } else {
      var sizes := LongTiesStick(log, n, first, stop);
    }
  }

  function Tick(id: nat, ts: int): Trade {
    Trade(id, ts, 1.0, 1.0, Buy)
  }

  const TIES := [Tick(0, 1), Tick(1, 1), Tick(2, 2), Tick(3, 2), Tick(4, 2)]

  lemma TiesWalk(sizes: PageSizes)
    requires forall k :: sizes(k) == 4
    ensures FateOf(TIES, sizes, 0, 0, Start(TIES, 0), 10) == Fate(false, Some(CursorDidNotAdvance))
  {
    assert InOrder(TIES);
    assert Start(TIES, 0) == 0;
    StartSplits(TIES, 2, 1);
    StartSplits(TIES, 2, 2);
    assert Start(TIES, 2) == 2 && End(TIES, 2, 4) == 5 && End(TIES, 0, 4) == 4;
    assert sizes(0) == 4 && sizes(1) == 4;
    assert TIES[3].ts == 2 && TIES[4].ts == 2;
    assert FateOf(TIES, sizes, 1, 2, 4, 10) == Fate(false, Some(CursorDidNotAdvance));
  }

  lemma TiesAreHonest()
    ensures Honest(TIES) && forall i :: 0 <= i && i + 4 <= |TIES| ==> TIES[i].ts < TIES[i + 3].ts
  {
    assert |TIES| == 5;
    assert forall i :: 0 <= i < 5 ==> TIES[i].id == i && TIES[i].ts == if i < 2 then 1 else 2;
  }

  /** Long pages alone are not enough: when a page boundary splits the log's last tie group, the
      next page brings a new trade without moving the cursor. No page of four here shares one
      timestamp. */
  lemma SplitLastTieFails()
    ensures Honest(TIES) && forall i :: 0 <= i && i + 4 <= |TIES| ==> TIES[i].ts < TIES[i + 3].ts
    ensures FateOf(TIES, k => 4, 0, 0, Start(TIES, 0), 10) == Fate(false, Some(CursorDidNotAdvance))
  {
    TiesAreHonest();
    TiesWalk(k => 4);
  }

  /** On that log the client ends with an error, whatever it has streamed by then. */
  method TiesStreamFails() returns (out: seq<Trade>, error: Option<StreamError>)
    ensures error == Some(CursorDidNotAdvance) && out <= InRange(TIES, 1, 10)
  {
    SplitLastTieFails();
    out, error := TradesBetween(TIES, k => 4, 1, 10);
  }

  // ----- candles from trades -----

  datatype Bar = Bar(bucket: int, open: real, high: real, low: real, close: real, volume: real)

  function Opened(t: Trade, bucket: int): Bar {
    Bar(bucket, t.price, t.price, t.price, t.price, t.size)
  }

  function Extended(b: Bar, t: Trade): Bar {
    Bar(b.bucket, b.open, Max(b.high, t.price), Min(b.low, t.price), t.price, b.volume + t.size)
  }

  /** The trades of one bucket. */
  function InBucket(trades: seq<Trade>, bucket: int, step: int): seq<Trade>
    requires step > 0
  {
    if trades == [] then []
    else
      var t := trades[|trades| - 1];
      InBucket(trades[..|trades| - 1], bucket, step) + (if FloorTo(t.ts, step) == bucket then [t] else [])
  }

  /** First, highest, lowest, last price and total size. */
  ghost predicate Summarises(b: Bar, trades: seq<Trade>) {
    && trades != [] && b.open == trades[0].price && b.close == trades[|trades| - 1].price
    && (exists i :: 0 <= i < |trades| && trades[i].price == b.high)
    && (exists i :: 0 <= i < |trades| && trades[i].price == b.low)
    && (forall i :: 0 <= i < |trades| ==> b.low <= trades[i].price <= b.high)
    && b.volume == Volume(trades)
  }

  function Volume(trades: seq<Trade>): real {
    if trades == [] then 0.0 else Volume(trades[..|trades| - 1]) + trades[|trades| - 1].size
  }

  ghost predicate BucketsAscend(bars: seq<Bar>) {
    forall i, j :: 0 <= i < j < |bars| ==> bars[i].bucket < bars[j].bucket
  }

  ghost predicate EachSummarises(bars: seq<Bar>, trades: seq<Trade>, step: int)
    requires step > 0
  {
    forall k :: 0 <= k < |bars| ==> Summarises(bars[k], InBucket(trades, bars[k].bucket, step))
  }

  ghost predicate AllCovered(bars: seq<Bar>, trades: seq<Trade>, step: int)
    requires step > 0
  {
    forall i :: 0 <= i < |trades| ==> HasBucket(bars, FloorTo(trades[i].ts, step))
  }

  /** One bar per bucket with a trade, in time order, each summarising its own trades. */
  ghost predicate GroupsByBucket(bars: seq<Bar>, trades: seq<Trade>, step: int)
    requires step > 0
  {
    BucketsAscend(bars) && EachSummarises(bars, trades, step) && AllCovered(bars, trades, step)
  }

  ghost predicate HasBucket(bars: seq<Bar>, bucket: int) {
    exists k :: 0 <= k < |bars| && bars[k].bucket == bucket
  }

  lemma SummaryOpens(t: Trade, bucket: int)
    ensures Summarises(Opened(t, bucket), [t])
  {
    assert [t][..0] == [] && Volume([t]) == t.size;
    assert [t][0] == t;
  }

  lemma SummaryExtends(b: Bar, trades: seq<Trade>, t: Trade)
    requires Summarises(b, trades)
    ensures Summarises(Extended(b, t), trades + [t])
  {
    var all := trades + [t];
    assert all[..|trades|] == trades && all[|trades|] == t;
    var i :| 0 <= i < |trades| && trades[i].price == b.high;
    var j :| 0 <= j < |trades| && trades[j].price == b.low;
    assert all[i] == trades[i] && all[j] == trades[j];
  }

  /** Times never go back. */
  predicate Chronological(trades: seq<Trade>) {
    forall i, j :: 0 <= i < j < |trades| ==> trades[i].ts <= trades[j].ts
  }

  /** The last bar is the open bucket's. */
  ghost predicate LastIs(bars: seq<Bar>, trades: seq<Trade>, step: int)
    requires step > 0
  {
    (bars == [] <==> trades == [])
    && (trades != [] ==> bars[|bars| - 1].bucket == FloorTo(trades[|trades| - 1].ts, step))
  }

  /** What one more trade does to the bars. */
  function WithTrade(bars: seq<Bar>, t: Trade, step: int): seq<Bar>
    requires step > 0
  {
    var bucket := FloorTo(t.ts, step);
    if bars != [] && bars[|bars| - 1].bucket == bucket then bars[..|bars| - 1] + [Extended(bars[|bars| - 1], t)]
    else bars + [Opened(t, bucket)]
  }

  lemma {:induction false} InBucketGrows(trades: seq<Trade>, t: Trade, bucket: int, step: int)
    requires step > 0
    ensures FloorTo(t.ts, step) == bucket
        ==> InBucket(trades + [t], bucket, step) == InBucket(trades, bucket, step) + [t]
    ensures FloorTo(t.ts, step) != bucket ==> InBucket(trades + [t], bucket, step) == InBucket(trades, bucket, step)
  {
    assert (trades + [t])[..|trades|] == trades;
  }

  lemma {:induction false} NoTradeInBucket(trades: seq<Trade>, bucket: int, step: int)
    requires step > 0 && forall i :: 0 <= i < |trades| ==> FloorTo(trades[i].ts, step) < bucket
    ensures InBucket(trades, bucket, step) == []
  {
    if trades != [] {
      NoTradeInBucket(trades[..|trades| - 1], bucket, step);
    }
  }

  /** The last bar's bucket is the latest so far. */
  lemma {:induction false} LatestBucket(bars: seq<Bar>, trades: seq<Trade>, t: Trade, step: int)
    requires step > 0 && Chronological(trades + [t]) && LastIs(bars, trades, step) && trades != []
    ensures bars[|bars| - 1].bucket <= FloorTo(t.ts, step)
    ensures forall i :: 0 <= i < |trades| ==> FloorTo(trades[i].ts, step) <= bars[|bars| - 1].bucket
  {
    var all := trades + [t];
    assert all[|trades| - 1] == trades[|trades| - 1] && all[|trades|] == t;
    FloorMonotone(trades[|trades| - 1].ts, t.ts, step);
    forall i | 0 <= i < |trades| ensures FloorTo(trades[i].ts, step) <= bars[|bars| - 1].bucket {
      assert all[i] == trades[i];
      FloorMonotone(trades[i].ts, trades[|trades| - 1].ts, step);
    }
  }

  lemma {:induction false} CoveredStays(bars: seq<Bar>, after: seq<Bar>, trades: seq<Trade>, t: Trade, step: int)
    requires step > 0 && AllCovered(bars, trades, step) && |bars| <= |after|
    requires forall k :: 0 <= k < |bars| ==> after[k].bucket == bars[k].bucket
    requires after != [] && after[|after| - 1].bucket == FloorTo(t.ts, step)
    ensures AllCovered(after, trades + [t], step)
  {
    forall i | 0 <= i < |trades + [t]| ensures HasBucket(after, FloorTo((trades + [t])[i].ts, step)) {
      if i < |trades| {
        assert HasBucket(bars, FloorTo(trades[i].ts, step));
        var k :| 0 <= k < |bars| && bars[k].bucket == FloorTo(trades[i].ts, step);
        assert after[k].bucket == bars[k].bucket;
      } else {
        assert after[|after| - 1].bucket == FloorTo(t.ts, step);
      }
    }
  }

  lemma {:induction false} EarlierStay(bars: seq<Bar>, n: nat, trades: seq<Trade>, t: Trade, step: int)
    requires step > 0 && n <= |bars| && EachSummarises(bars, trades, step)
    requires forall k :: 0 <= k < n ==> bars[k].bucket != FloorTo(t.ts, step)
    ensures EachSummarises(bars[..n], trades + [t], step)
  {
    forall k | 0 <= k < n ensures Summarises(bars[k], InBucket(trades + [t], bars[k].bucket, step)) {
      InBucketGrows(trades, t, bars[k].bucket, step);
      assert Summarises(bars[k], InBucket(trades, bars[k].bucket, step));
    }
  }

  lemma {:induction false} ExtendsLast(bars: seq<Bar>, trades: seq<Trade>, t: Trade, step: int)
    requires step > 0 && GroupsByBucket(bars, trades, step) && bars != []
    requires bars[|bars| - 1].bucket == FloorTo(t.ts, step)
    ensures GroupsByBucket(bars[..|bars| - 1] + [Extended(bars[|bars| - 1], t)], trades + [t], step)
  {
    var n := |bars| - 1;
    var after := bars[..n] + [Extended(bars[n], t)];
    CoveredStays(bars, after, trades, t, step);
    EarlierStay(bars, n, trades, t, step);
    InBucketGrows(trades, t, bars[n].bucket, step);
    SummaryExtends(bars[n], InBucket(trades, bars[n].bucket, step), t);
    SummariesJoin(bars[..n], Extended(bars[n], t), trades + [t], step);
  }

  lemma {:induction false} SummariesJoin(bars: seq<Bar>, b: Bar, trades: seq<Trade>, step: int)
    requires step > 0 && EachSummarises(bars, trades, step) && Summarises(b, InBucket(trades, b.bucket, step))
    ensures EachSummarises(bars + [b], trades, step)
  {}

  lemma {:induction false} OpensNext(bars: seq<Bar>, trades: seq<Trade>, t: Trade, step: int)
    requires step > 0 && GroupsByBucket(bars, trades, step)
    requires forall i :: 0 <= i < |trades| ==> FloorTo(trades[i].ts, step) < FloorTo(t.ts, step)
    requires bars != [] ==> bars[|bars| - 1].bucket < FloorTo(t.ts, step)
    ensures GroupsByBucket(bars + [Opened(t, FloorTo(t.ts, step))], trades + [t], step)
  {
    var bucket := FloorTo(t.ts, step);
    var after := bars + [Opened(t, bucket)];
    CoveredStays(bars, after, trades, t, step);
    OpensAlone(trades, t, step);
    AscendsTo(bars, Opened(t, bucket));
    forall k | 0 <= k < |bars| ensures bars[k].bucket != bucket {
      assert k < |bars| - 1 ==> bars[k].bucket < bars[|bars| - 1].bucket;
    }
    EarlierStay(bars, |bars|, trades, t, step);
    assert bars[..|bars|] == bars;
    SummariesJoin(bars, Opened(t, bucket), trades + [t], step);
  }

  lemma {:induction false} OpensAlone(trades: seq<Trade>, t: Trade, step: int)
    requires step > 0 && forall i :: 0 <= i < |trades| ==> FloorTo(trades[i].ts, step) < FloorTo(t.ts, step)
    ensures Summarises(Opened(t, FloorTo(t.ts, step)), InBucket(trades + [t], FloorTo(t.ts, step), step))
  {
    var bucket := FloorTo(t.ts, step);
    InBucketGrows(trades, t, bucket, step);
    NoTradeInBucket(trades, bucket, step);
    SummaryOpens(t, bucket);
  }

  lemma AscendsTo(bars: seq<Bar>, b: Bar)
    requires BucketsAscend(bars) && (bars != [] ==> bars[|bars| - 1].bucket < b.bucket)
    ensures BucketsAscend(bars + [b])
  {
    forall i | 0 <= i < |bars| ensures bars[i].bucket < b.bucket {
      assert i < |bars| - 1 ==> bars[i].bucket < bars[|bars| - 1].bucket;
    }
  }

  lemma LastAfter(bars: seq<Bar>, trades: seq<Trade>, t: Trade, step: int)
    requires step > 0
    ensures LastIs(WithTrade(bars, t, step), trades + [t], step)
  {
    assert (trades + [t])[|trades|] == t;
  }

  lemma {:induction false} NewBucketIsLater(bars: seq<Bar>, trades: seq<Trade>, t: Trade, step: int)
    requires step > 0 && Chronological(trades + [t]) && LastIs(bars, trades, step)
    requires bars != [] ==> bars[|bars| - 1].bucket != FloorTo(t.ts, step)
    ensures forall i :: 0 <= i < |trades| ==> FloorTo(trades[i].ts, step) < FloorTo(t.ts, step)
    ensures bars != [] ==> bars[|bars| - 1].bucket < FloorTo(t.ts, step)
  {
    if trades != [] {
      LatestBucket(bars, trades, t, step);
    }
  }

  lemma OneTrade(bars: seq<Bar>, trades: seq<Trade>, t: Trade, step: int)
    requires step > 0 && Chronological(trades + [t])
    requires GroupsByBucket(bars, trades, step) && LastIs(bars, trades, step)
    ensures GroupsByBucket(WithTrade(bars, t, step), trades + [t], step)
  {
    if bars != [] && bars[|bars| - 1].bucket == FloorTo(t.ts, step) {
      ExtendsLast(bars, trades, t, step);
    } else {
      NewBucketIsLater(bars, trades, t, step);
      OpensNext(bars, trades, t, step);
    }
  }

  function Held(current: Option<Bar>): seq<Bar> {
    if current.Some? then [current.value] else []
  }

  /** The held-back bar is extended by a trade of its own bucket and released by a later one. */
  lemma {:induction false} HeldBack(bars: seq<Bar>, current: Option<Bar>, t: Trade, step: int)
    requires step > 0 && (current.None? ==> bars == [])
    ensures WithTrade(bars + Held(current), t, step)
         == if current.Some? && current.value.bucket == FloorTo(t.ts, step) then bars + [Extended(current.value, t)]
            else bars + Held(current) + [Opened(t, FloorTo(t.ts, step))]
  {
    if current.Some? {
      assert (bars + [current.value])[..|bars|] == bars;
    }
  }

  /** The bars yielded and the one held back group the trades seen so far. */
  ghost predicate Rebuilding(bars: seq<Bar>, current: Option<Bar>, trades: seq<Trade>, step: int)
    requires step > 0
  {
    && GroupsByBucket(bars + Held(current), trades, step) && LastIs(bars + Held(current), trades, step)
    && (current.None? ==> bars == [])
  }

  lemma {:induction false} RebuildOne(bars: seq<Bar>, current: Option<Bar>, trades: seq<Trade>, t: Trade, step: int)
    requires step > 0 && Chronological(trades + [t]) && Rebuilding(bars, current, trades, step)
    ensures if current.Some? && current.value.bucket == FloorTo(t.ts, step)
            then Rebuilding(bars, Some(Extended(current.value, t)), trades + [t], step)
            else Rebuilding(bars + Held(current), Some(Opened(t, FloorTo(t.ts, step))), trades + [t], step)
  {
    OneTrade(bars + Held(current), trades, t, step);
    LastAfter(bars + Held(current), trades, t, step);
    HeldBack(bars, current, t, step);
  }

  /** A finished stream groups all its trades; a failed one lacks the bar it was filling. */
  ghost predicate Streams(bars: seq<Bar>, trades: seq<Trade>, step: int, failed: bool)
    requires step > 0
  {
    if failed && trades != [] then exists held :: GroupsByBucket(bars + Held(Some(held)), trades, step)
    else GroupsByBucket(bars, trades, step)
  }

  /** Stream candles from an ordered trade stream. The bucket being filled is held back until a
      later trade or the end of the stream completes it; a failing stream never yields it. */
  method StreamCandles(trades: seq<Trade>, step: int, failed: bool) returns (bars: seq<Bar>)
    requires step > 0 && Chronological(trades)
    ensures Streams(bars, trades, step, failed)
  {
    bars := [];
    var current: Option<Bar> := None;
    NothingYet(step);
    for i := 0 to |trades|
      invariant Rebuilding(bars, current, trades[..i], step)
    {
      PrefixStep(trades, i);
      bars, current := TakeTrade(bars, current, trades[i], step, trades[..i]);
    }
    assert trades[..|trades|] == trades;
    LastBar(bars, current, trades, step);
    if !failed && current.Some? {
      bars := bars + [current.value];
    }
  }

  lemma NothingYet(step: int)
    requires step > 0
    ensures Rebuilding([], None, [], step)
  {}

  lemma PrefixStep(trades: seq<Trade>, i: nat)
    requires Chronological(trades) && i < |trades|
    ensures trades[..i] + [trades[i]] == trades[..i + 1] && Chronological(trades[..i + 1])
  {}

  lemma LastBar(bars: seq<Bar>, current: Option<Bar>, trades: seq<Trade>, step: int)
    requires step > 0 && Rebuilding(bars, current, trades, step)
    ensures current.None? <==> trades == []
    ensures current.Some? ==> Streams(bars, trades, step, true) && Streams(bars + [current.value], trades, step, false)
    ensures current.None? ==> Streams(bars, trades, step, true) && Streams(bars, trades, step, false)
  {
    assert bars + [] == bars;
  }

  method TakeTrade(before: seq<Bar>, held: Option<Bar>, t: Trade, step: int, ghost seen: seq<Trade>)
    returns (bars: seq<Bar>, current: Option<Bar>)
    requires step > 0 && Chronological(seen + [t]) && Rebuilding(before, held, seen, step)
    ensures Rebuilding(bars, current, seen + [t], step)
  {
    RebuildOne(before, held, seen, t, step);
    var bucket := FloorTo(t.ts, step);
    if held.None? || held.value.bucket != bucket {
      bars, current := before + Held(held), Some(Opened(t, bucket));
    } else {
      bars, current := before, Some(Extended(held.value, t));
    }
  }

  lemma {:induction false} InRangeChronological(log: seq<Trade>, first: int, stop: int)
    requires InOrder(log)
    ensures Chronological(InRange(log, first, stop))
    ensures forall i ::
        0 <= i < |InRange(log, first, stop)| ==> log != [] && InRange(log, first, stop)[i].ts <= log[|log| - 1].ts
  {
    if log != [] {
      var init := log[..|log| - 1];
      InRangeChronological(init, first, stop);
      assert init != [] ==> Before(init[|init| - 1], log[|log| - 1]);
    }
  }

  /** Complete candles of the range, rebuilt from the paged trades: partial boundary buckets are
      left out, and when no page gets stuck the bars group exactly the log's trades by bucket. */
  method HistoricalCandles(log: seq<Trade>, sizes: PageSizes, start: int, end: int, settled: int, step: int)
    returns (bars: seq<Bar>, error: Option<StreamError>)
    requires Honest(log) && Sizes(sizes) && step > 0
    ensures error == Some(EmptyRange) <==> start >= end
    ensures start < end ==>
            var first, stop := CeilTo(start, step), FloorTo(MinOf(end, settled), step);
            && (first >= stop ==> bars == [] && error == None)
            && (first < stop && NeverStuckFrom(log, sizes, first, stop) ==>
                  error == None && GroupsByBucket(bars, InRange(log, first, stop), step))
  {
    if start >= end {
      return [], Some(EmptyRange);
    }
    var first, stop := CeilTo(start, step), FloorTo(MinOf(end, settled), step);
    if first >= stop {
      return [], None;
    }
    bars, error := CandlesBetween(log, sizes, first, stop, step);
  }

  method CandlesBetween(log: seq<Trade>, sizes: PageSizes, first: int, stop: int, step: int)
    returns (bars: seq<Bar>, error: Option<StreamError>)
    requires Honest(log) && Sizes(sizes) && step > 0 && first < stop
    ensures NeverStuckFrom(log, sizes, first, stop) ==>
              error == None && GroupsByBucket(bars, InRange(log, first, stop), step)
    ensures error != Some(EmptyRange)
  {
    var trades;
    trades, error := TradesBetween(log, sizes, first, stop);
    InRangeChronological(log, first, stop);
    bars := StreamCandles(trades, step, error.Some?);
  }
}
