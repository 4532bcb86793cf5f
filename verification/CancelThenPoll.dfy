/** Finality of the live venue's cancel-then-poll candle close (kaupo/venues/kraken_live.py). */
module CancelThenPoll {
  import opened Domain
  import opened ExchangeTrades
  import opened KrakenVenue
  import opened LiveProtocol

  /** The poll reported order `id` expired. */
  predicate Reported(st: VenueState, st': VenueState, id: OrderId) {
    exists k :: |st.expired| <= k < |st'.expired| && st'.expired[k].id == id
  }

  /** Retiring reports exactly the unfilled orders that are not stuck. */
  predicate ToExpire(st: VenueState, tracked: seq<Tracked>, stuck: seq<Tracked>, id: OrderId) {
    exists i :: 0 <= i < |tracked| && tracked[i].id == id && !Tracks(stuck, id) && id in st.orders
        && !st.orders[id].status.Filled?
  }

  lemma {:induction false} RetiredOthers(st: VenueState, tracked: seq<Tracked>, stuck: seq<Tracked>, id: OrderId)
    requires id in st.orders && !Tracks(tracked, id)
    ensures id in RetiredAll(st, tracked, stuck).orders && RetiredAll(st, tracked, stuck).orders[id] == st.orders[id]
  {
    if tracked != [] {
      var init := tracked[..|tracked| - 1];
      assert forall i :: 0 <= i < |init| ==> init[i] == tracked[i];
      RetiredOthers(st, init, stuck, id);
    }
  }

  lemma {:induction false} RetiredReports(st: VenueState, tracked: seq<Tracked>, stuck: seq<Tracked>, id: OrderId)
    requires Separate(tracked)
    requires forall i ::
        0 <= i < |tracked| ==> tracked[i].id in st.orders && st.orders[tracked[i].id].id == tracked[i].id
    ensures |st.expired| <= |RetiredAll(st, tracked, stuck).expired|
    ensures Reported(st, RetiredAll(st, tracked, stuck), id) <==> ToExpire(st, tracked, stuck, id)
  {
    if tracked != [] {
      var last := |tracked| - 1;
      var init, t := tracked[..last], tracked[last];
      RetiredReports(st, init, stuck, id);
      assert forall i :: 0 <= i < last ==> init[i] == tracked[i];
      RetiredOthers(st, init, stuck, t.id);
      ToExpireGrows(st, init, t, stuck, id);
      assert tracked == init + [t];
      var before, after := RetiredAll(st, init, stuck), RetiredAll(st, tracked, stuck);
      ReportedGrows(st, before, after, id);
    }
  }

  lemma ToExpireGrows(st: VenueState, init: seq<Tracked>, t: Tracked, stuck: seq<Tracked>, id: OrderId)
    ensures ToExpire(st, init + [t], stuck, id)
       <==> ToExpire(st, init, stuck, id)
            || (t.id == id && !Tracks(stuck, id) && id in st.orders && !st.orders[id].status.Filled?)
  {
    var all := init + [t];
    assert all[|init|] == t;
    if ToExpire(st, init, stuck, id) {
      var i :| 0 <= i < |init| && init[i].id == id;
      assert all[i].id == id;
    }
  }

  lemma ReportedGrows(st: VenueState, before: VenueState, after: VenueState, id: OrderId)
    requires |st.expired| <= |before.expired|
    requires after.expired == before.expired
        || (|after.expired| == |before.expired| + 1 && before.expired <= after.expired)
    ensures Reported(st, after, id)
       <==> Reported(st, before, id)
            || (|after.expired| > |before.expired| && after.expired[|before.expired|].id == id)
  {
    if Reported(st, before, id) {
      var k :| |st.expired| <= k < |before.expired| && before.expired[k].id == id;
      assert after.expired[k].id == id;
    }
  }

  /** An order leaving tracking is reported expired exactly when no trade of it has been emitted. */
  lemma ExpiredIsUnfilled(w: World, pair: Pair, answer: Option<seq<ExchangeTrade>>, n: nat, t: Tracked)
    requires Invariant(w, n) && Enabled(w, Poll(answer)) && t in w.venue.tracked && t.txid in w.phase.cancelled
    ensures var r := Polled(w, pair, answer);
            && t !in r.venue.tracked
            && (Reported(w.venue, r.venue, t.id) <==> Of(r.emitted, t.txid) == [])
  {
    var unread := Unread(answer, w.venue.seen);
    var c := Moved(Cursor(w.venue.cursor, w.venue.seen), unread);
    var st := w.venue.(cursor := c.at, seen := c.seen);
    var filled := FillsFrom(st, pair, unread).state;
    assert TrackedSound(w, n, t);
    FilledOnFile(w, st, pair, unread, n);
    RetiredReports(filled, filled.tracked, StuckNow(w), t.id);
    RetiredKeepsFile(filled, filled.tracked, StuckNow(w));
    NotStuck(w, n, t);
    var k :| 0 <= k < |w.venue.tracked| && w.venue.tracked[k] == t;
    TxidsAre(unread);
    GroupsStamp(st, pair, unread, Txids(unread), t);
    OfConcat(w.emitted, unread, t.txid);
  }

  /** Turning trades into fills keeps every tracked order on file. */
  lemma FilledOnFile(w: World, st: VenueState, pair: Pair, unread: seq<ExchangeTrade>, n: nat)
    requires TrackingSound(w, n) && st == w.venue.(cursor := st.cursor, seen := st.seen)
    ensures var filled := FillsFrom(st, pair, unread).state;
            && filled.tracked == w.venue.tracked && filled.expired == w.venue.expired
            && forall i :: 0 <= i < |filled.tracked| ==>
                 filled.tracked[i].id in filled.orders && filled.orders[filled.tracked[i].id].id == filled.tracked[i].id
  {
    TxidsAre(unread);
    FillGroupsKeepsRest(st, pair, unread, Txids(unread));
    var filled := FillsFrom(st, pair, unread).state;
    forall i | 0 <= i < |filled.tracked|
      ensures filled.tracked[i].id in filled.orders && filled.orders[filled.tracked[i].id].id == filled.tracked[i].id
    {
      assert TrackedSound(w, n, w.venue.tracked[i]);
      GroupsStamp(st, pair, unread, Txids(unread), w.venue.tracked[i]);
    }
  }

  lemma NotStuck(w: World, n: nat, t: Tracked)
    requires TrackingSound(w, n) && w.phase.Cancelling? && t in w.venue.tracked && t.txid in w.phase.cancelled
    ensures t !in StuckNow(w) && !Tracks(StuckNow(w), t.id)
  {
    var stuck := StuckNow(w);
    StuckElements(w.venue.tracked, x => x in w.phase.cancelled, t);
    forall i | 0 <= i < |stuck| ensures stuck[i].id != t.id {
      StuckElements(w.venue.tracked, x => x in w.phase.cancelled, stuck[i]);
      var j :| 0 <= j < |w.venue.tracked| && w.venue.tracked[j] == stuck[i];
      var k :| 0 <= k < |w.venue.tracked| && w.venue.tracked[k] == t;
    }
  }

  /** An order whose cancel failed stays tracked, whatever the poll answers. */
  lemma StuckStaysTracked(w: World, pair: Pair, answer: Option<seq<ExchangeTrade>>, t: Tracked)
    requires Enabled(w, Poll(answer)) && t in w.venue.tracked && t.txid !in w.phase.cancelled
    ensures t in Next(w, Poll(answer), pair).venue.tracked
  {
    PolledCursor(w, pair, answer);
    StuckElements(w.venue.tracked, x => x in w.phase.cancelled, t);
  }

  /** An order that can no longer execute and whose trades were all emitted. */
  ghost predicate Settled(w: World, x: Txid) {
    && x in w.ex.placed && x !in w.ex.live
    && (forall t :: t in w.ex.log && t.txid == x ==> t in w.emitted)
  }

  lemma {:induction false} SettledStep(w: World, e: Event, n: nat, pair: Pair, x: Txid)
    requires Invariant(w, n) && Settled(w, x) && Enabled(w, e)
    ensures var w' := Next(w, e, pair);
            Settled(w', x) && Of(w'.ex.log, x) == Of(w.ex.log, x) && Of(w'.emitted, x) == Of(w.emitted, x)
  {
    match e
    case Execute(t) => OfAppend(w.ex.log, t, x);
    case Poll(answer) => SettledPoll(w, answer, n, pair, x);
    case _ =>
  }

  lemma {:induction false} SettledPoll(w: World, answer: Option<seq<ExchangeTrade>>, n: nat, pair: Pair, x: Txid)
    requires Invariant(w, n) && Settled(w, x) && Enabled(w, Poll(answer))
    ensures Of(Polled(w, pair, answer).emitted, x) == Of(w.emitted, x)
  {
    var unread := Unread(answer, w.venue.seen);
    OfConcat(w.emitted, unread, x);
    OfNone(unread, x);
    if answer.Some? {
      forall t | t in unread ensures t.txid != x {
        UnreadIsExact(w, answer.value, n, t);
        InLog(w.ex.log, n, t);
      }
    }
  }

  lemma {:induction false} SettledForever(w: World, events: seq<Event>, n: nat, pair: Pair, x: Txid)
    requires Invariant(w, n) && Settled(w, x) && Possible(w, events, pair)
    ensures var r := After(w, events, pair);
            Invariant(r, n) && Of(r.ex.log, x) == Of(w.ex.log, x) && Of(r.emitted, x) == Of(w.emitted, x)
    decreases |events|
  {
    if events != [] {
      StepKeeps(w, events[0], n, pair);
      SettledStep(w, events[0], n, pair, x);
      SettledForever(Next(w, events[0], pair), events[1..], n, pair, x);
    }
  }

  /** A run up to the end of a candle whose poll succeeded, for an order whose cancel did too. */
  ghost predicate ClosesOrder(w: World, events: seq<Event>, answer: seq<ExchangeTrade>, n: nat, pair: Pair,
                              t: Tracked) {
    && Handover(w, n) && Possible(w, events, pair)
    && Enabled(After(w, events, pair), Poll(Some(answer)))
    && t in After(w, events, pair).venue.tracked && t.txid in After(w, events, pair).phase.cancelled
  }

  /** Cancel, then poll: an order leaving tracking has emitted fills whose sizes sum to everything
      the exchange ever executes for it, however the run continues; it is reported expired exactly
      when it executed nothing. */
  lemma {:induction false} CancelThenPollIsFinal(w: World, events: seq<Event>, answer: seq<ExchangeTrade>, n: nat,
                                                 pair: Pair, t: Tracked, later: seq<Event>)
    requires ClosesOrder(w, events, answer, n, pair, t)
    requires Possible(Next(After(w, events, pair), Poll(Some(answer)), pair), later, pair)
    ensures var before := After(w, events, pair);
            var r := Next(before, Poll(Some(answer)), pair);
            var end := After(r, later, pair);
            && t !in r.venue.tracked
            && FilledSize(r.fills, t.txid) == TotalSize(Of(end.ex.log, t.txid)) == FilledSize(end.fills, t.txid)
            && (Reported(before.venue, r.venue, t.id) <==> Of(end.ex.log, t.txid) == [])
  {
    HandoverStarts(w, n);
    RunKeeps(w, events, n, pair);
    var before := After(w, events, pair);
    var r := Next(before, Poll(Some(answer)), pair);
    PollKeeps(before, Some(answer), n, pair);
    ExpiredIsUnfilled(before, pair, Some(answer), n, t);
    NowSettled(before, answer, n, pair, t);
    SettledForever(r, later, n, pair, t.txid);
  }

  lemma NowSettled(before: World, answer: seq<ExchangeTrade>, n: nat, pair: Pair, t: Tracked)
    requires Invariant(before, n) && Enabled(before, Poll(Some(answer)))
    requires t in before.venue.tracked && t.txid in before.phase.cancelled
    ensures var r := Next(before, Poll(Some(answer)), pair);
            && Settled(r, t.txid)
            && TotalSize(Of(r.emitted, t.txid)) == TotalSize(Of(r.ex.log, t.txid))
            && (Of(r.emitted, t.txid) == [] <==> Of(r.ex.log, t.txid) == [])
  {
    assert TrackedSound(before, n, t);
    EmittedDistinct(before, answer, n);
    AllEmitted(before.ex.log, n, before.emitted + Unread(Some(answer), before.venue.seen), t.txid);
  }

  lemma {:induction false} AllEmitted(log: seq<ExchangeTrade>, n: nat, emitted: seq<ExchangeTrade>, x: Txid)
    requires DistinctIds(log) && DistinctIds(emitted) && n <= |log| && Of(log[..n], x) == []
    requires forall t :: t in emitted <==> t in log[n..]
    ensures forall t :: t in log && t.txid == x ==> t in emitted
    ensures TotalSize(Of(emitted, x)) == TotalSize(Of(log, x))
    ensures Of(emitted, x) == [] <==> Of(log, x) == []
  {
    OfNone(log[..n], x);
    forall t | t in log && t.txid == x ensures t in emitted {
      InLog(log, n, t);
    }
    TailDistinct(log, n);
    SameExecution(log[..n], log[n..], emitted, x);
    assert log == log[..n] + log[n..];
  }

  /** What was emitted of an order without earlier trades is all it executed. */
  lemma {:induction false} SameExecution(head: seq<ExchangeTrade>, tail: seq<ExchangeTrade>,
                                         emitted: seq<ExchangeTrade>, x: Txid)
    requires DistinctIds(tail) && DistinctIds(emitted) && Of(head, x) == []
    requires forall t :: t in emitted <==> t in tail
    ensures TotalSize(Of(emitted, x)) == TotalSize(Of(head + tail, x))
    ensures Of(emitted, x) == [] <==> Of(head + tail, x) == []
  {
    OfConcat(head, tail, x);
    assert Of(head + tail, x) == Of(tail, x);
    SameTradesSameSize(emitted, tail, x);
    OfNone(emitted, x);
    OfNone(tail, x);
  }

  // ----- when the poll fails -----

  const PAIR := Pair("BTC", "EUR")
  const ID := Local(1)
  const BUY := LiveOrder(ID, Buy, Limit, 1.0, Open, None, None, None, 0.0, None)
  const TRADE := ExchangeTrade(10, 7, 5, Buy, 100.0, 1.0, 0.1, Some(Maker))

  /** One order placed, executed in full, and cancelled because it is already gone. */
  const EVENTS := [Place(BUY, 7), Execute(TRADE), StartCandle, CancelNext(true)]

  const NOTHING := World(Exchange([], {}, {}, 0), VenueState(map[], [], map[], [], [], Some(0), {}), Trading, [], [])

  const RESTING := VenueState(map[ID := BUY.(txid := Some(7))], [Tracked(ID, 7)], map[7 := ID], [], [], Some(0), {})

  const PLACED := World(Exchange([], {7}, {7}, 0), RESTING, Trading, [], [])
  const EXECUTED := World(Exchange([TRADE], {7}, {7}, 5), RESTING, Trading, [], [])
  const CLOSING := World(Exchange([TRADE], {7}, {7}, 5), RESTING, Cancelling(0, {}), [], [])
  const CANCELLED := World(Exchange([TRADE], {}, {7}, 5), RESTING, Cancelling(1, {7}), [], [])

  lemma PlacedNext()
    ensures Enabled(NOTHING, EVENTS[0]) && Next(NOTHING, EVENTS[0], PAIR) == PLACED
    ensures Enabled(PLACED, EVENTS[1]) && Next(PLACED, EVENTS[1], PAIR) == EXECUTED
  {}

  lemma CancelledNext()
    ensures Enabled(EXECUTED, EVENTS[2]) && Next(EXECUTED, EVENTS[2], PAIR) == CLOSING
    ensures Enabled(CLOSING, EVENTS[3]) && Next(CLOSING, EVENTS[3], PAIR) == CANCELLED
  {
    assert RESTING.tracked[0] == Tracked(ID, 7);
    assert Tracks(RESTING.tracked, ID) && TracksTxid(RESTING.tracked, 7);
    assert Pruned(RESTING).orders == RESTING.orders && Pruned(RESTING).byTxid == RESTING.byTxid;
    assert CLOSING.ex.live - {7} == CANCELLED.ex.live && CLOSING.phase.cancelled + {7} == CANCELLED.phase.cancelled;
  }

  /** The run up to the failing poll. */
  lemma RunToCancelled()
    ensures Handover(NOTHING, 0) && Possible(NOTHING, EVENTS, PAIR) && After(NOTHING, EVENTS, PAIR) == CANCELLED
    ensures Invariant(CANCELLED, 0)
  {
    PlacedNext();
    CancelledNext();
    OneByOne(NOTHING, EVENTS, PAIR, PLACED, EXECUTED, CLOSING, CANCELLED);
    NothingHandedOver();
    HandoverStarts(NOTHING, 0);
    RunKeeps(NOTHING, EVENTS, 0, PAIR);
  }

  lemma NothingHandedOver()
    ensures Handover(NOTHING, 0)
  {}

  /** An expired report is right, for every run, if and only if the poll succeeded, or a fill of the
      order was emitted earlier, or it executed nothing. */
  lemma {:induction false} ExpiredReportIsRight(w: World, events: seq<Event>, answer: Option<seq<ExchangeTrade>>,
                                                n: nat, pair: Pair, t: Tracked)
    requires Handover(w, n) && Possible(w, events, pair) && Enabled(After(w, events, pair), Poll(answer))
    requires t in After(w, events, pair).venue.tracked && t.txid in After(w, events, pair).phase.cancelled
    ensures var before := After(w, events, pair);
            var r := Next(before, Poll(answer), pair);
            && r.ex == before.ex
            && ((Reported(before.venue, r.venue, t.id) ==> Of(r.ex.log, t.txid) == [])
                <==> answer.Some? || Of(before.emitted, t.txid) != [] || Of(before.ex.log, t.txid) == [])
  {
    HandoverStarts(w, n);
    RunKeeps(w, events, n, pair);
    var before := After(w, events, pair);
    ExpiredIsUnfilled(before, pair, answer, n, t);
    if answer.Some? {
      NowSettled(before, answer.value, n, pair, t);
    } else {
      assert before.emitted + [] == before.emitted;
    }
  }

  /** Otherwise it is wrong: with the poll failed and the trade unread, the executed order is
      reported expired. */
  lemma FailedPollMisreports()
    ensures Handover(NOTHING, 0) && Possible(NOTHING, EVENTS, PAIR) && After(NOTHING, EVENTS, PAIR) == CANCELLED
    ensures Enabled(CANCELLED, Poll(None))
    ensures Reported(CANCELLED.venue, Next(CANCELLED, Poll(None), PAIR).venue, ID)
    ensures CANCELLED.venue.orders[ID].txid == Some(7) && Of(CANCELLED.ex.log, 7) == [TRADE]
  {
    RunToCancelled();
    assert CANCELLED.venue.tracked[0] == Tracked(ID, 7);
    ExpiredIsUnfilled(CANCELLED, PAIR, None, 0, Tracked(ID, 7));
    assert [TRADE][..0] == [];
  }

  lemma {:induction false} OneByOne(w0: World, events: seq<Event>, pair: Pair, w1: World, w2: World, w3: World,
                                    w4: World)
    requires |events| == 4
    requires Enabled(w0, events[0]) && w1 == Next(w0, events[0], pair)
    requires Enabled(w1, events[1]) && w2 == Next(w1, events[1], pair)
    requires Enabled(w2, events[2]) && w3 == Next(w2, events[2], pair)
    requires Enabled(w3, events[3]) && w4 == Next(w3, events[3], pair)
    ensures Possible(w0, events, pair) && After(w0, events, pair) == w4
  {
    var e1, e2, e3 := events[1..], events[2..], events[3..];
    assert e1[1..] == e2 && e2[1..] == e3 && e3[1..] == [];
    assert e1[0] == events[1] && e2[0] == events[2] && e3[0] == events[3];
    assert Possible(w4, [], pair) && After(w4, [], pair) == w4;
    assert Possible(w3, e3, pair) && After(w3, e3, pair) == w4;
    assert Possible(w2, e2, pair) && After(w2, e2, pair) == w4;
    assert Possible(w1, e1, pair) && After(w1, e1, pair) == w4;
  }
}
