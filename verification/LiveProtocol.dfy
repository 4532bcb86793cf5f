/** The exchange and the live venue as one state machine: executions, placements, cancels, polls
    and poll failures in any order (kaupo/venues/kraken_live.py).

    The exchange's trade log only grows, its clock never runs back, and equal times are allowed. */
module LiveProtocol {
  import opened Domain
  import opened ExchangeTrades
  import opened KrakenVenue

  /** `live` orders can still execute; `placed` are all there ever were. */
  datatype Exchange = Exchange(log: seq<ExchangeTrade>, live: set<Txid>, placed: set<Txid>, clock: int)

  /** Between candles, or closing one with some cancels answered. */
  datatype Phase = Trading | Cancelling(answered: nat, cancelled: set<Txid>)

  /** A fill and the exchange order whose trades it aggregates. */
  datatype OrderFill = OrderFill(txid: Txid, fill: Fill)

  datatype World = World(ex: Exchange, venue: VenueState, phase: Phase, emitted: seq<ExchangeTrade>,
                         fills: seq<OrderFill>)

  datatype Event =
    | Execute(trade: ExchangeTrade)
    | OpenElsewhere(txid: Txid)
    | CloseOrder(txid: Txid)
    | Place(order: LiveOrder, txid: Txid)
    | Decline(order: LiveOrder, refusal: Placement)
    | StartCandle
    | CancelNext(ok: bool)
    | Poll(answer: Option<seq<ExchangeTrade>>)

  predicate DistinctIds(trades: seq<ExchangeTrade>) {
    forall i, j :: 0 <= i < j < |trades| ==> trades[i].id != trades[j].id
  }

  predicate AtOrAfter(t: ExchangeTrade, cursor: Option<int>) {
    cursor.None? || cursor.value <= t.ts
  }

  /** A successful poll answers with every logged trade at or after the cursor, in any order. */
  ghost predicate Answers(answer: seq<ExchangeTrade>, log: seq<ExchangeTrade>, cursor: Option<int>) {
    && DistinctIds(answer)
    && (forall t :: t in answer <==> t in log && AtOrAfter(t, cursor))
  }

  /** An id the venue has not handed out. */
  predicate NewId(st: VenueState, id: OrderId) {
    id.Local? && id !in st.orders && (forall x :: x in st.byTxid ==> st.byTxid[x] != id)
    && !Tracks(st.tracked, id)
  }

  ghost predicate Enabled(w: World, e: Event) {
    match e
    case Execute(t) => t.txid in w.ex.live && w.ex.clock <= t.ts && t.id !in Ids(w.ex.log)
    case OpenElsewhere(x) => x !in w.ex.placed
    case CloseOrder(x) => true
    case Place(o, x) => w.phase.Trading? && x !in w.ex.placed && NewId(w.venue, o.id) && o.status.Open?
    case Decline(o, answer) => w.phase.Trading? && NewId(w.venue, o.id) && !answer.Placed?
    case StartCandle => w.phase.Trading?
    case CancelNext(ok) => w.phase.Cancelling? && w.phase.answered < |w.venue.tracked|
    case Poll(answer) =>
      w.phase.Cancelling? && w.phase.answered == |w.venue.tracked|
      && (answer.Some? ==> Answers(answer.value, w.ex.log, w.venue.cursor))
  }

  function Tagged(txids: seq<Txid>, fills: seq<Fill>): seq<OrderFill>
    requires |txids| == |fills|
  {
    seq(|fills|, i requires 0 <= i < |fills| => OrderFill(txids[i], fills[i]))
  }

  lemma {:induction false} OneFillPerOrder(st: VenueState, pair: Pair, trades: seq<ExchangeTrade>, txids: seq<Txid>)
    requires forall x :: x in txids ==> Of(trades, x) != []
    ensures forall i :: 0 <= i < |txids| ==>
              FillGroups(st, pair, trades, txids).fills[i].size == TotalSize(Of(trades, txids[i]))
  {
    if txids != [] {
      OneFillPerOrder(st, pair, trades, txids[..|txids| - 1]);
    }
  }

  function StuckNow(w: World): seq<Tracked>
    requires w.phase.Cancelling?
  {
    StuckOf(w.venue.tracked, x => x in w.phase.cancelled)
  }

  ghost function Polled(w: World, pair: Pair, answer: Option<seq<ExchangeTrade>>): World
    requires w.phase.Cancelling?
  {
    var unread := Unread(answer, w.venue.seen);
    var r := Closed(w.venue, pair, StuckNow(w), answer);
    World(w.ex, r.state, Trading, w.emitted + unread, w.fills + Tagged(Txids(unread), r.fills))
  }

  ghost function Next(w: World, e: Event, pair: Pair): World
    requires Enabled(w, e)
  {
    match e
    case Execute(t) => w.(ex := w.ex.(log := w.ex.log + [t], clock := t.ts))
    case OpenElsewhere(x) => w.(ex := w.ex.(live := w.ex.live + {x}, placed := w.ex.placed + {x}))
    case CloseOrder(x) => w.(ex := w.ex.(live := w.ex.live - {x}))
    case Place(o, x) =>
      w.(ex := w.ex.(live := w.ex.live + {x}, placed := w.ex.placed + {x}), venue := Submitted(w.venue, o, Placed(x)))
    case Decline(o, answer) => w.(venue := Submitted(w.venue, o, answer))
    case StartCandle => w.(venue := Pruned(w.venue), phase := Cancelling(0, {}))
    case CancelNext(ok) =>
      var x := w.venue.tracked[w.phase.answered].txid;
      w.(ex := if ok then w.ex.(live := w.ex.live - {x}) else w.ex,
         phase := Cancelling(w.phase.answered + 1, if ok then w.phase.cancelled + {x} else w.phase.cancelled))
    case Poll(answer) => Polled(w, pair, answer)
  }

  ghost predicate Possible(w: World, events: seq<Event>, pair: Pair)
    decreases |events|
  {
    events == [] || (Enabled(w, events[0]) && Possible(Next(w, events[0], pair), events[1..], pair))
  }

  ghost function After(w: World, events: seq<Event>, pair: Pair): World
    requires Possible(w, events, pair)
    decreases |events|
  {
    if events == [] then w else After(Next(w, events[0], pair), events[1..], pair)
  }

  // ----- invariants -----

  ghost predicate LogSound(ex: Exchange) {
    && DistinctIds(ex.log) && ex.live <= ex.placed
    && (forall t :: t in ex.log ==> t.ts <= ex.clock && t.txid in ex.placed)
  }

  /** Read: emitted by the venue, or read by the reconciler (the first `n` of the log). */
  ghost predicate Read(w: World, n: nat, t: ExchangeTrade) {
    t in w.emitted || (n <= |w.ex.log| && t in w.ex.log[..n])
  }

  /** Older than the cursor, or remembered at it. */
  predicate Behind(t: ExchangeTrade, st: VenueState) {
    st.cursor.Some? && (t.ts < st.cursor.value || (t.ts == st.cursor.value && t.id in st.seen))
  }

  /** The cursor separates what was read from what was not; ties are told apart by id. */
  ghost predicate CursorSound(w: World, n: nat) {
    && n <= |w.ex.log| && DistinctIds(w.emitted)
    && (forall t :: t in w.emitted ==> t in w.ex.log[n..])
    && (forall t :: Read(w, n, t) ==> Behind(t, w.venue))
    && (forall t :: t in w.ex.log && t.id in w.venue.seen ==> Read(w, n, t))
    && w.venue.seen <= Ids(w.ex.log)
    && (forall t :: t in w.ex.log[n..] && !AtOrAfter(t, w.venue.cursor) ==> t in w.emitted)
    && (w.venue.cursor.Some? ==> w.venue.cursor.value <= w.ex.clock)
  }

  predicate Separate(tracked: seq<Tracked>) {
    forall i, j :: 0 <= i < j < |tracked| ==> tracked[i].id != tracked[j].id && tracked[i].txid != tracked[j].txid
  }

  /** Tracked orders have their own ids and txids, and the venue can attribute their trades. */
  ghost predicate TrackingSound(w: World, n: nat) {
    var st := w.venue;
    && n <= |w.ex.log|
    && Separate(st.tracked)
    && (forall i :: 0 <= i < |st.tracked| ==> TrackedSound(w, n, st.tracked[i]))
  }

  /** The venue attributes a tracked order's trades to it, and no other order's. */
  predicate Attributed(st: VenueState, t: Tracked) {
    && t.id.Local? && t.id in st.orders && st.orders[t.id].id == t.id && t.txid in st.byTxid
    && st.byTxid[t.txid] == t.id
    && (forall x :: x in st.byTxid && st.byTxid[x] == t.id ==> x == t.txid)
  }

  ghost predicate TrackedSound(w: World, n: nat, t: Tracked)
    requires n <= |w.ex.log|
  {
    var st := w.venue;
    && Attributed(st, t) && t.txid in w.ex.placed
    && Of(w.ex.log[..n], t.txid) == []
    && (st.orders[t.id].status.Filled? <==> Of(w.emitted, t.txid) != [])
  }

  /** Orders whose cancel succeeded can no longer execute. */
  ghost predicate CancelsSound(w: World) {
    w.phase.Cancelling? ==>
      w.phase.answered <= |w.venue.tracked| && w.phase.cancelled !! w.ex.live && w.phase.cancelled <= w.ex.placed
  }

  function FilledSize(fills: seq<OrderFill>, txid: Txid): real {
    if fills == [] then 0.0
    else
      var f := fills[|fills| - 1];
      FilledSize(fills[..|fills| - 1], txid) + (if f.txid == txid then f.fill.size else 0.0)
  }

  /** Fills carry exactly the size of the trades emitted. */
  ghost predicate FillsSound(w: World) {
    forall x :: FilledSize(w.fills, x) == TotalSize(Of(w.emitted, x))
  }

  ghost predicate Invariant(w: World, n: nat) {
    LogSound(w.ex) && CursorSound(w, n) && TrackingSound(w, n) && CancelsSound(w) && FillsSound(w)
  }

  /** What the reconciler hands over: a fresh venue whose cursor and seen ids cover the first `n`
      logged trades and no later one. */
  ghost predicate Handover(w: World, n: nat) {
    && LogSound(w.ex) && n <= |w.ex.log|
    && w.emitted == [] && w.fills == [] && w.phase.Trading?
    && w.venue == VenueState(map[], [], map[], [], [], w.venue.cursor, w.venue.seen)
    && (forall t :: t in w.ex.log[..n] ==> Behind(t, w.venue))
    && (forall t :: t in w.ex.log[n..] ==> AtOrAfter(t, w.venue.cursor) && t.id !in w.venue.seen)
    && w.venue.seen <= Ids(w.ex.log)
    && (w.venue.cursor.Some? ==> w.venue.cursor.value <= w.ex.clock)
  }

  lemma InLog(log: seq<ExchangeTrade>, n: nat, t: ExchangeTrade)
    requires n <= |log|
    ensures t in log <==> t in log[..n] || t in log[n..]
  {
    assert log == log[..n] + log[n..];
  }

  lemma HandoverStarts(w: World, n: nat)
    requires Handover(w, n)
    ensures Invariant(w, n)
  {
    forall t | t in w.ex.log && t.id in w.venue.seen ensures Read(w, n, t) {
      InLog(w.ex.log, n, t);
    }
  }

  // ----- executions and orders -----

  lemma {:induction false} OfNone(trades: seq<ExchangeTrade>, txid: Txid)
    ensures Of(trades, txid) == [] <==> forall t :: t in trades ==> t.txid != txid
  {
    if Of(trades, txid) == [] {
      forall t | t in trades ensures t.txid != txid {
        OfElements(trades, txid, t);
      }
    } else {
      OfElements(trades, txid, Of(trades, txid)[0]);
    }
  }

  /** Everything the venue does between polls leaves what was read alone. */
  ghost predicate SameReading(w: World, w': World) {
    && w'.emitted == w.emitted && w'.fills == w.fills
    && w'.venue.cursor == w.venue.cursor && w'.venue.seen == w.venue.seen
  }

  lemma ReadingKept(w: World, w': World, n: nat)
    requires CursorSound(w, n) && SameReading(w, w') && w'.ex.log == w.ex.log && w.ex.clock <= w'.ex.clock
    ensures CursorSound(w', n)
  {
    forall t ensures Read(w', n, t) <==> Read(w, n, t) {
    }
  }

  lemma ExecuteCursor(w: World, t: ExchangeTrade, n: nat, pair: Pair)
    requires LogSound(w.ex) && CursorSound(w, n) && Enabled(w, Execute(t))
    ensures CursorSound(Next(w, Execute(t), pair), n)
  {
    var w' := Next(w, Execute(t), pair);
    var log, log' := w.ex.log, w'.ex.log;
    assert log'[..n] == log[..n] && log'[n..] == log[n..] + [t];
    forall x ensures Read(w', n, x) <==> Read(w, n, x) {
    }
    IdsGrow(log, t);
  }

  lemma IdsGrow(log: seq<ExchangeTrade>, t: ExchangeTrade)
    ensures Ids(log + [t]) == Ids(log) + {t.id}
    ensures t.id !in Ids(log) ==> t !in log
  {
    forall i | 0 <= i < |log| ensures log[i].id in Ids(log + [t]) && log[i].id in Ids(log) {
      assert (log + [t])[i] == log[i];
    }
    assert (log + [t])[|log|] == t;
  }

  lemma ExecuteLog(ex: Exchange, t: ExchangeTrade)
    requires LogSound(ex) && t.txid in ex.live && ex.clock <= t.ts && t.id !in Ids(ex.log)
    ensures LogSound(ex.(log := ex.log + [t], clock := t.ts))
  {
    forall i | 0 <= i < |ex.log| ensures ex.log[i].id != t.id {
      assert ex.log[i].id in Ids(ex.log);
    }
  }

  lemma ExecuteKeeps(w: World, t: ExchangeTrade, n: nat, pair: Pair)
    requires Invariant(w, n) && Enabled(w, Execute(t))
    ensures Invariant(Next(w, Execute(t), pair), n)
  {
    var w' := Next(w, Execute(t), pair);
    ExecuteLog(w.ex, t);
    ExecuteCursor(w, t, n, pair);
    assert w'.ex.log[..n] == w.ex.log[..n];
    forall i | 0 <= i < |w.venue.tracked| ensures TrackedSound(w', n, w.venue.tracked[i]) {
      assert TrackedSound(w, n, w.venue.tracked[i]);
    }
  }

  lemma PlaceKeeps(w: World, o: LiveOrder, x: Txid, n: nat, pair: Pair)
    requires Invariant(w, n) && Enabled(w, Place(o, x))
    ensures Invariant(Next(w, Place(o, x), pair), n)
  {
    var w' := Next(w, Place(o, x), pair);
    ReadingKept(w, w', n);
    OfNone(w.ex.log[..n], x);
    OfNone(w.emitted, x);
    NothingPlacedYet(w, x, n);
    var m := |w.venue.tracked|;
    forall i | 0 <= i < |w'.venue.tracked| ensures TrackedSound(w', n, w'.venue.tracked[i]) {
      if i < m {
        assert TrackedSound(w, n, w.venue.tracked[i]);
      }
    }
    forall i | 0 <= i < m ensures w.venue.tracked[i].id != o.id && w.venue.tracked[i].txid != x {
      assert TrackedSound(w, n, w.venue.tracked[i]);
    }
  }

  /** A txid that was never placed has no trade anywhere. */
  lemma NothingPlacedYet(w: World, x: Txid, n: nat)
    requires LogSound(w.ex) && CursorSound(w, n) && x !in w.ex.placed
    ensures forall t :: t in w.ex.log[..n] || t in w.emitted ==> t.txid != x
  {
    forall t | t in w.ex.log[..n] || t in w.emitted ensures t.txid != x {
      InLog(w.ex.log, n, t);
    }
  }

  lemma DeclineKeeps(w: World, o: LiveOrder, refusal: Placement, n: nat, pair: Pair)
    requires Invariant(w, n) && Enabled(w, Decline(o, refusal))
    ensures Invariant(Next(w, Decline(o, refusal), pair), n)
  {
    var w' := Next(w, Decline(o, refusal), pair);
    ReadingKept(w, w', n);
    forall i | 0 <= i < |w.venue.tracked| ensures TrackedSound(w', n, w.venue.tracked[i]) {
      assert TrackedSound(w, n, w.venue.tracked[i]);
    }
  }

  lemma StartKeeps(w: World, n: nat, pair: Pair)
    requires Invariant(w, n) && Enabled(w, StartCandle)
    ensures Invariant(Next(w, StartCandle, pair), n)
  {
    var w' := Next(w, StartCandle, pair);
    ReadingKept(w, w', n);
    forall i | 0 <= i < |w.venue.tracked| ensures TrackedSound(w', n, w.venue.tracked[i]) {
      assert TrackedSound(w, n, w.venue.tracked[i]);
    }
  }

  lemma ExchangeKeeps(w: World, live: set<Txid>, placed: set<Txid>, phase: Phase, n: nat)
    requires Invariant(w, n) && live <= placed && w.ex.placed <= placed
    requires phase.Cancelling?
        ==> phase.answered <= |w.venue.tracked| && phase.cancelled !! live && phase.cancelled <= placed
    ensures Invariant(w.(ex := w.ex.(live := live, placed := placed), phase := phase), n)
  {
    var w' := w.(ex := w.ex.(live := live, placed := placed), phase := phase);
    ReadingKept(w, w', n);
    forall i | 0 <= i < |w.venue.tracked| ensures TrackedSound(w', n, w.venue.tracked[i]) {
      assert TrackedSound(w, n, w.venue.tracked[i]);
    }
  }

  // ----- polls -----

  /** What a successful poll brings is exactly what was not read before. */
  lemma UnreadIsExact(w: World, answer: seq<ExchangeTrade>, n: nat, t: ExchangeTrade)
    requires LogSound(w.ex) && CursorSound(w, n) && Answers(answer, w.ex.log, w.venue.cursor)
    ensures t in Unread(Some(answer), w.venue.seen) <==> t in w.ex.log[n..] && t !in w.emitted
  {
    UnseenElements(answer, w.venue.seen, t);
    InLog(w.ex.log, n, t);
    if t in w.ex.log[n..] && t in w.ex.log[..n] {
      NotTwice(w.ex.log, n, t);
    }
    assert Read(w, n, t) ==> Behind(t, w.venue);
    assert t in w.ex.log && t.id in w.venue.seen ==> Read(w, n, t);
  }

  lemma NotTwice(log: seq<ExchangeTrade>, n: nat, t: ExchangeTrade)
    requires DistinctIds(log) && n <= |log| && t in log[..n]
    ensures t !in log[n..]
  {
    var i :| 0 <= i < n && log[..n][i] == t;
    forall j | 0 <= j < |log[n..]| ensures log[n..][j] != t {
      assert log[i].id != log[n + j].id;
    }
  }

  lemma {:induction false} UnseenDistinct(answer: seq<ExchangeTrade>, seen: set<nat>)
    requires DistinctIds(answer)
    ensures DistinctIds(Unseen(answer, seen))
  {
    if answer != [] {
      var init, t := answer[..|answer| - 1], answer[|answer| - 1];
      UnseenDistinct(init, seen);
      var u := Unseen(init, seen);
      forall i | 0 <= i < |u| ensures u[i].id != t.id {
        UnseenElements(init, seen, u[i]);
        var k :| 0 <= k < |init| && init[k] == u[i];
        assert answer[k].id != t.id;
      }
    }
  }

  lemma EmittedDistinct(w: World, answer: seq<ExchangeTrade>, n: nat)
    requires LogSound(w.ex) && CursorSound(w, n) && Answers(answer, w.ex.log, w.venue.cursor)
    ensures DistinctIds(w.emitted + Unread(Some(answer), w.venue.seen))
    ensures forall t :: t in w.emitted + Unread(Some(answer), w.venue.seen) <==> t in w.ex.log[n..]
  {
    var unread := Unread(Some(answer), w.venue.seen);
    UnseenDistinct(answer, w.venue.seen);
    forall t ensures t in unread <==> t in w.ex.log[n..] && t !in w.emitted {
      UnreadIsExact(w, answer, n, t);
    }
    forall i, j | 0 <= i < |w.emitted| && 0 <= j < |unread| ensures w.emitted[i].id != unread[j].id {
      assert unread[j] in unread && w.emitted[i] in w.emitted;
      DifferentTrades(w.ex.log, n, w.emitted[i], unread[j]);
    }
  }

  lemma DifferentTrades(log: seq<ExchangeTrade>, n: nat, a: ExchangeTrade, b: ExchangeTrade)
    requires DistinctIds(log) && n <= |log| && a in log[n..] && b in log[n..] && a != b
    ensures a.id != b.id
  {
    var i :| 0 <= i < |log[n..]| && log[n..][i] == a;
    var j :| 0 <= j < |log[n..]| && log[n..][j] == b;
    assert log[n + i].id != log[n + j].id;
  }

  /** After the cursor has moved, everything read is behind it. */
  lemma MovedBehind(st: VenueState, unread: seq<ExchangeTrade>, t: ExchangeTrade)
    requires forall u :: u in unread ==> AtOrAfter(u, st.cursor)
    requires Behind(t, st) || t in unread
    ensures var c := Moved(Cursor(st.cursor, st.seen), unread); Behind(t, st.(cursor := c.at, seen := c.seen))
  {
    if unread != [] {
      var newest := NewestTs(unread);
      var k :| 0 <= k < |unread| && unread[k].ts == newest;
      assert unread[k] in unread;
      if t in unread {
        var i :| 0 <= i < |unread| && unread[i] == t;
        assert t.id in Ids(unread) && (t.ts == newest ==> t.id in IdsAt(unread, newest));
      }
    }
  }

  lemma MovedSeen(c: Cursor, unread: seq<ExchangeTrade>, id: nat)
    requires id in Moved(c, unread).seen
    ensures id in c.seen || exists i :: 0 <= i < |unread| && unread[i].id == id
  {}

  /** The cursor after a successful poll. */
  lemma PollCursor(w: World, answer: seq<ExchangeTrade>, w': World, n: nat)
    requires LogSound(w.ex) && CursorSound(w, n) && Answers(answer, w.ex.log, w.venue.cursor)
    requires w'.ex == w.ex && w'.emitted == w.emitted + Unread(Some(answer), w.venue.seen)
    requires Cursor(w'.venue.cursor, w'.venue.seen)
        == Moved(Cursor(w.venue.cursor, w.venue.seen), Unread(Some(answer), w.venue.seen))
    ensures CursorSound(w', n)
  {
    var unread := Unread(Some(answer), w.venue.seen);
    EmittedDistinct(w, answer, n);
    forall t | t in unread ensures AtOrAfter(t, w.venue.cursor) && t in w.ex.log {
      UnseenElements(answer, w.venue.seen, t);
    }
    forall t | Read(w', n, t) ensures Behind(t, w'.venue) {
      assert t in unread || Read(w, n, t);
      MovedBehind(w.venue, unread, t);
    }
    forall t | t in w.ex.log && t.id in w'.venue.seen ensures Read(w', n, t) {
      MovedSeen(Cursor(w.venue.cursor, w.venue.seen), unread, t.id);
      InLog(w.ex.log, n, t);
      if t.id !in w.venue.seen {
        var i :| 0 <= i < |unread| && unread[i].id == t.id;
        assert unread[i] in unread;
        SameId(w.ex.log, t, unread[i]);
      }
    }
    forall id | id in w'.venue.seen ensures id in Ids(w.ex.log) {
      MovedSeen(Cursor(w.venue.cursor, w.venue.seen), unread, id);
      if id !in w.venue.seen {
        var i :| 0 <= i < |unread| && unread[i].id == id;
        assert unread[i] in unread;
        var k :| 0 <= k < |w.ex.log| && w.ex.log[k] == unread[i];
      }
    }
    if unread != [] {
      var k :| 0 <= k < |unread| && unread[k].ts == NewestTs(unread);
      assert unread[k] in unread;
    }
  }

  lemma SameId(log: seq<ExchangeTrade>, a: ExchangeTrade, b: ExchangeTrade)
    requires DistinctIds(log) && a in log && b in log && a.id == b.id
    ensures a == b
  {
    var i :| 0 <= i < |log| && log[i] == a;
    var j :| 0 <= j < |log| && log[j] == b;
  }

  /** A failed poll reads nothing and moves nothing. */
  lemma NoAnswerCursor(w: World, w': World, n: nat)
    requires CursorSound(w, n) && w'.ex == w.ex && w'.emitted == w.emitted + []
    requires w'.venue.cursor == w.venue.cursor && w'.venue.seen == w.venue.seen
    ensures CursorSound(w', n)
  {
    forall t ensures Read(w', n, t) <==> Read(w, n, t) {
    }
  }

  // ----- fills of a poll -----

  lemma {:induction false} TaggedSize(txids: seq<Txid>, fills: seq<Fill>, x: Txid, sizes: Txid -> real)
    requires |txids| == |fills| && Distinct(txids)
    requires forall i :: 0 <= i < |txids| ==> fills[i].size == sizes(txids[i])
    ensures FilledSize(Tagged(txids, fills), x) == if x in txids then sizes(x) else 0.0
  {
    if txids != [] {
      var last := |txids| - 1;
      assert Tagged(txids, fills)[..last] == Tagged(txids[..last], fills[..last]);
      TaggedSize(txids[..last], fills[..last], x, sizes);
      assert txids == txids[..last] + [txids[last]];
    }
  }

  lemma {:induction false} FilledAppend(a: seq<OrderFill>, b: seq<OrderFill>, x: Txid)
    ensures FilledSize(a + b, x) == FilledSize(a, x) + FilledSize(b, x)
  {
    if b == [] {
      assert a + b == a;
    } else {
      assert (a + b)[..|a + b| - 1] == a + b[..|b| - 1];
      FilledAppend(a, b[..|b| - 1], x);
    }
  }

  /** One poll's fills carry the size of its trades, order by order. */
  lemma {:induction false} PollSizes(st: VenueState, pair: Pair, unread: seq<ExchangeTrade>, x: Txid)
    ensures FilledSize(Tagged(Txids(unread), FillsFrom(st, pair, unread).fills), x) == TotalSize(Of(unread, x))
  {
    TxidsAre(unread);
    OneFillPerOrder(st, pair, unread, Txids(unread));
    TaggedSize(Txids(unread), FillsFrom(st, pair, unread).fills, x,
               (y: Txid) => TotalSize(Of(unread, y)));
  }

  lemma PollFills(w: World, pair: Pair, answer: Option<seq<ExchangeTrade>>)
    requires FillsSound(w) && w.phase.Cancelling?
    ensures FillsSound(Polled(w, pair, answer))
  {
    var unread := Unread(answer, w.venue.seen);
    var c := Moved(Cursor(w.venue.cursor, w.venue.seen), unread);
    var st := w.venue.(cursor := c.at, seen := c.seen);
    forall x ensures FilledSize(Polled(w, pair, answer).fills, x) == TotalSize(Of(w.emitted + unread, x)) {
      PollSizes(st, pair, unread, x);
      FilledAppend(w.fills, Tagged(Txids(unread), FillsFrom(st, pair, unread).fills), x);
      OfConcat(w.emitted, unread, x);
      SizeConcat(Of(w.emitted, x), Of(unread, x));
    }
  }

  // ----- tracked orders across a poll -----

  /** A tracked order ends up filled exactly when it was or one of its trades was among these. */
  lemma {:induction false} GroupsStamp(st: VenueState, pair: Pair, trades: seq<ExchangeTrade>, txids: seq<Txid>,
                                       t: Tracked)
    requires Attributed(st, t) && forall x :: x in txids ==> Of(trades, x) != []
    ensures var r := FillGroups(st, pair, trades, txids).state;
            Attributed(r, t) && (r.orders[t.id].status.Filled? <==> st.orders[t.id].status.Filled? || t.txid in txids)
  {
    if txids != [] {
      var last := |txids| - 1;
      GroupsStamp(st, pair, trades, txids[..last], t);
      assert txids == txids[..last] + [txids[last]];
    }
  }

  lemma {:induction false} RetiredSpares(st: VenueState, tracked: seq<Tracked>, stuck: seq<Tracked>, id: OrderId)
    requires id in st.orders && Tracks(stuck, id)
    ensures id in RetiredAll(st, tracked, stuck).orders && RetiredAll(st, tracked, stuck).orders[id] == st.orders[id]
  {
    if tracked != [] {
      RetiredSpares(st, tracked[..|tracked| - 1], stuck, id);
    }
  }

  lemma {:induction false} StuckElements(tracked: seq<Tracked>, cancelled: CancelAnswers, t: Tracked)
    ensures t in StuckOf(tracked, cancelled) <==> t in tracked && !cancelled(t.txid)
  {
    if tracked != [] {
      StuckElements(tracked[..|tracked| - 1], cancelled, t);
      assert tracked == tracked[..|tracked| - 1] + [tracked[|tracked| - 1]];
    }
  }

  lemma {:induction false} StuckSeparate(tracked: seq<Tracked>, cancelled: CancelAnswers)
    requires Separate(tracked)
    ensures Separate(StuckOf(tracked, cancelled))
  {
    if tracked != [] {
      var init, t := tracked[..|tracked| - 1], tracked[|tracked| - 1];
      StuckSeparate(init, cancelled);
      var stuck := StuckOf(init, cancelled);
      forall i | 0 <= i < |stuck| ensures stuck[i].id != t.id && stuck[i].txid != t.txid {
        StuckElements(init, cancelled, stuck[i]);
        var k :| 0 <= k < |init| && init[k] == stuck[i];
        assert tracked[k] == stuck[i];
      }
    }
  }

  /** An order still tracked after the poll. */
  lemma StillTracked(w: World, pair: Pair, answer: Option<seq<ExchangeTrade>>, n: nat, t: Tracked)
    requires w.phase.Cancelling? && n <= |w.ex.log| && t in StuckNow(w) && TrackedSound(w, n, t)
    ensures TrackedSound(Polled(w, pair, answer), n, t)
  {
    var unread := Unread(answer, w.venue.seen);
    var c := Moved(Cursor(w.venue.cursor, w.venue.seen), unread);
    var st := w.venue.(cursor := c.at, seen := c.seen);
    TxidsAre(unread);
    GroupsStamp(st, pair, unread, Txids(unread), t);
    var r := FillsFrom(st, pair, unread).state;
    var k :| 0 <= k < |StuckNow(w)| && StuckNow(w)[k] == t;
    RetiredSpares(r, r.tracked, StuckNow(w), t.id);
    RetiredKeepsFile(r, r.tracked, StuckNow(w));
    OfConcat(w.emitted, unread, t.txid);
  }

  lemma PollTracking(w: World, pair: Pair, answer: Option<seq<ExchangeTrade>>, n: nat)
    requires w.phase.Cancelling? && TrackingSound(w, n)
    ensures TrackingSound(Polled(w, pair, answer), n)
  {
    var stuck := StuckNow(w);
    StuckSeparate(w.venue.tracked, x => x in w.phase.cancelled);
    forall i | 0 <= i < |stuck| ensures TrackedSound(Polled(w, pair, answer), n, stuck[i]) {
      StuckElements(w.venue.tracked, x => x in w.phase.cancelled, stuck[i]);
      var k :| 0 <= k < |w.venue.tracked| && w.venue.tracked[k] == stuck[i];
      StillTracked(w, pair, answer, n, stuck[i]);
    }
  }

  lemma PolledCursor(w: World, pair: Pair, answer: Option<seq<ExchangeTrade>>)
    requires w.phase.Cancelling?
    ensures var w' := Polled(w, pair, answer);
            Cursor(w'.venue.cursor, w'.venue.seen)
                == Moved(Cursor(w.venue.cursor, w.venue.seen), Unread(answer, w.venue.seen))
            && w'.venue.tracked == StuckNow(w)
  {
    var unread := Unread(answer, w.venue.seen);
    var c := Moved(Cursor(w.venue.cursor, w.venue.seen), unread);
    var st := w.venue.(cursor := c.at, seen := c.seen);
    TxidsAre(unread);
    FillGroupsKeepsRest(st, pair, unread, Txids(unread));
    var r := FillsFrom(st, pair, unread).state;
    RetiredKeepsFile(r, r.tracked, StuckNow(w));
  }

  lemma PollKeeps(w: World, answer: Option<seq<ExchangeTrade>>, n: nat, pair: Pair)
    requires Invariant(w, n) && Enabled(w, Poll(answer))
    ensures Invariant(Next(w, Poll(answer), pair), n)
  {
    PolledCursor(w, pair, answer);
    if answer.Some? {
      PollCursor(w, answer.value, Polled(w, pair, answer), n);
    } else {
      NoAnswerCursor(w, Polled(w, pair, answer), n);
    }
    PollTracking(w, pair, answer, n);
    PollFills(w, pair, answer);
  }

  // ----- every run -----

  lemma StepKeeps(w: World, e: Event, n: nat, pair: Pair)
    requires Invariant(w, n) && Enabled(w, e)
    ensures Invariant(Next(w, e, pair), n)
  {
    match e
    case Execute(t) => ExecuteKeeps(w, t, n, pair);
    case OpenElsewhere(x) => ExchangeKeeps(w, w.ex.live + {x}, w.ex.placed + {x}, w.phase, n);
    case CloseOrder(x) => ExchangeKeeps(w, w.ex.live - {x}, w.ex.placed, w.phase, n);
    case Place(o, x) => PlaceKeeps(w, o, x, n, pair);
    case Decline(o, refusal) => DeclineKeeps(w, o, refusal, n, pair);
    case StartCandle => StartKeeps(w, n, pair);
    case CancelNext(ok) => CancelKeeps(w, ok, n, pair);
    case Poll(answer) => PollKeeps(w, answer, n, pair);
  }

  lemma CancelKeeps(w: World, ok: bool, n: nat, pair: Pair)
    requires Invariant(w, n) && Enabled(w, CancelNext(ok))
    ensures Invariant(Next(w, CancelNext(ok), pair), n)
  {
    var t := w.venue.tracked[w.phase.answered];
    assert TrackedSound(w, n, t);
    var live := if ok then w.ex.live - {t.txid} else w.ex.live;
    var cancelled := if ok then w.phase.cancelled + {t.txid} else w.phase.cancelled;
    ExchangeKeeps(w, live, w.ex.placed, Cancelling(w.phase.answered + 1, cancelled), n);
  }

  lemma {:induction false} RunKeeps(w: World, events: seq<Event>, n: nat, pair: Pair)
    requires Invariant(w, n) && Possible(w, events, pair)
    ensures Invariant(After(w, events, pair), n)
    ensures w.ex.log <= After(w, events, pair).ex.log
    decreases |events|
  {
    if events != [] {
      StepKeeps(w, events[0], n, pair);
      RunKeeps(Next(w, events[0], pair), events[1..], n, pair);
    }
  }

  /** Exactly once: whatever the interleaving of executions, placements, cancels, polls and
      failures, no trade is emitted twice, and none the reconciler had read is emitted at all. */
  lemma {:induction false} ExactlyOnce(w: World, events: seq<Event>, n: nat, pair: Pair)
    requires Handover(w, n) && Possible(w, events, pair)
    ensures var r := After(w, events, pair);
            && DistinctIds(r.emitted)
            && (forall t :: t in r.emitted ==> t in r.ex.log && t !in w.ex.log[..n])
  {
    HandoverStarts(w, n);
    RunKeeps(w, events, n, pair);
    var r := After(w, events, pair);
    assert r.ex.log[..n] == w.ex.log[..n];
    forall t | t in r.emitted ensures t in r.ex.log && t !in w.ex.log[..n] {
      InLog(r.ex.log, n, t);
      if t in r.ex.log[..n] {
        NotTwice(r.ex.log, n, t);
      }
    }
  }

  /** After a successful poll every trade logged since the handover has been emitted, and the
      fills of every exchange order carry exactly what it executed since. */
  lemma {:induction false} PollCatchesUp(w: World, events: seq<Event>, answer: seq<ExchangeTrade>, n: nat, pair: Pair)
    requires Handover(w, n) && Possible(w, events, pair) && Enabled(After(w, events, pair), Poll(Some(answer)))
    ensures var r := Next(After(w, events, pair), Poll(Some(answer)), pair);
            && n <= |r.ex.log|
            && (forall t :: t in r.emitted <==> t in r.ex.log[n..])
            && (forall x :: FilledSize(r.fills, x) == TotalSize(Of(r.ex.log[n..], x)))
  {
    HandoverStarts(w, n);
    RunKeeps(w, events, n, pair);
    var before := After(w, events, pair);
    var r := Next(before, Poll(Some(answer)), pair);
    PollKeeps(before, Some(answer), n, pair);
    EmittedDistinct(before, answer, n);
    forall x ensures FilledSize(r.fills, x) == TotalSize(Of(r.ex.log[n..], x)) {
      TailDistinct(r.ex.log, n);
      SameTradesSameSize(r.emitted, r.ex.log[n..], x);
    }
  }

  lemma TailDistinct(log: seq<ExchangeTrade>, n: nat)
    requires DistinctIds(log) && n <= |log|
    ensures DistinctIds(log[n..])
  {}

  function ShareOf(t: ExchangeTrade, x: Txid): real {
    if t.txid == x then t.size else 0.0
  }

  lemma {:induction false} SizeOfConcat(a: seq<ExchangeTrade>, b: seq<ExchangeTrade>, x: Txid)
    ensures TotalSize(Of(a + b, x)) == TotalSize(Of(a, x)) + TotalSize(Of(b, x))
  {
    OfConcat(a, b, x);
    SizeConcat(Of(a, x), Of(b, x));
  }

  lemma {:induction false} SizeOfOne(t: ExchangeTrade, x: Txid)
    ensures TotalSize(Of([t], x)) == ShareOf(t, x)
  {
    assert [t][..0] == [];
    assert Of([t], x) == (if t.txid == x then [t] else []);
  }

  lemma {:induction false} SizeWithout(b: seq<ExchangeTrade>, k: nat, x: Txid)
    requires k < |b|
    ensures TotalSize(Of(b, x)) == TotalSize(Of(b[..k] + b[k + 1..], x)) + ShareOf(b[k], x)
  {
    assert b == b[..k] + ([b[k]] + b[k + 1..]);
    SizeOfConcat(b[..k], [b[k]] + b[k + 1..], x);
    SizeOfConcat([b[k]], b[k + 1..], x);
    SizeOfConcat(b[..k], b[k + 1..], x);
    SizeOfOne(b[k], x);
  }

  lemma NoTrades(b: seq<ExchangeTrade>)
    ensures b == [] || exists t :: t in b
  {
    if b != [] {
      assert b[0] in b;
    }
  }

  /** The size of an order's trades does not depend on the order they are listed in. */
  lemma {:induction false} SameTradesSameSize(a: seq<ExchangeTrade>, b: seq<ExchangeTrade>, x: Txid)
    requires DistinctIds(a) && DistinctIds(b) && forall t :: t in a <==> t in b
    ensures TotalSize(Of(a, x)) == TotalSize(Of(b, x))
    decreases |a|
  {
    if a == [] {
      NoTrades(b);
    } else {
      var last := |a| - 1;
      assert a[last] in a;
      var k :| 0 <= k < |b| && b[k] == a[last];
      RestOf(a, b, k);
      SameTradesSameSize(a[..last], b[..k] + b[k + 1..], x);
      SizeWithout(b, k, x);
      SizeWithout(a, last, x);
      assert a[..last] + a[last + 1..] == a[..last];
    }
  }

  lemma RestOf(a: seq<ExchangeTrade>, b: seq<ExchangeTrade>, k: nat)
    requires DistinctIds(a) && DistinctIds(b) && (forall t :: t in a <==> t in b)
    requires a != [] && k < |b| && b[k] == a[|a| - 1]
    ensures var init, rest := a[..|a| - 1], b[..k] + b[k + 1..];
            DistinctIds(init) && DistinctIds(rest) && forall t :: t in init <==> t in rest
  {
    var last := |a| - 1;
    var init, rest := a[..last], b[..k] + b[k + 1..];
    assert a[..last] + a[last + 1..] == init;
    forall t ensures t in init <==> t in rest {
      Without(a, last, t);
      Without(b, k, t);
    }
  }

  lemma Without(b: seq<ExchangeTrade>, k: nat, t: ExchangeTrade)
    requires DistinctIds(b) && k < |b|
    ensures t in b[..k] + b[k + 1..] <==> t in b && t != b[k]
    ensures DistinctIds(b[..k] + b[k + 1..])
  {
    var rest := b[..k] + b[k + 1..];
    assert forall i :: 0 <= i < |rest| ==> rest[i] == b[if i < k then i else i + 1];
    if t in rest {
      var i :| 0 <= i < |rest| && rest[i] == t;
      assert b[if i < k then i else i + 1] == t;
    }
    if t in b && t != b[k] {
      var i :| 0 <= i < |b| && b[i] == t;
      assert rest[if i < k then i else i - 1] == t;
    }
  }
}
