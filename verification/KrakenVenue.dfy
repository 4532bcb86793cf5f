/** The live venue: place, cancel, poll, and the fills the exchange's trades become
    (kaupo/venues/kraken_live.py).

    Every exchange answer is a parameter: whether a cancel succeeded, what a poll returned. */
module KrakenVenue {
  import opened Domain
  import opened ExchangeTrades

  datatype LiveOrder = LiveOrder(id: OrderId, side: Side, kind: OrderType, size: real, status: OrderStatus,
                                 txid: Option<Txid>, filledPrice: Option<real>, filledTs: Option<int>, fee: real,
                                 tier: Option<Tier>)

  /** An order this venue placed and still tracks on the exchange. */
  datatype Tracked = Tracked(id: OrderId, txid: Txid)

  datatype VenueState = VenueState(orders: map<OrderId, LiveOrder>, tracked: seq<Tracked>, byTxid: map<Txid, OrderId>,
                                   expired: seq<LiveOrder>, newOrders: seq<LiveOrder>, cursor: Option<int>,
                                   seen: set<nat>)

  /** Which cancel requests the exchange acknowledged. */
  type CancelAnswers = Txid -> bool

  // ----- the trade cursor -----

  datatype Cursor = Cursor(at: Option<int>, seen: set<nat>)

  /** The trades of an answer not seen at the cursor yet. */
  function Unseen(answer: seq<ExchangeTrade>, seen: set<nat>): seq<ExchangeTrade> {
    if answer == [] then []
    else
      var t := answer[|answer| - 1];
      Unseen(answer[..|answer| - 1], seen) + (if t.id in seen then [] else [t])
  }

  /** What a poll brings: nothing when it failed. */
  function Unread(answer: Option<seq<ExchangeTrade>>, seen: set<nat>): seq<ExchangeTrade> {
    if answer.Some? then Unseen(answer.value, seen) else []
  }

  function Ids(trades: seq<ExchangeTrade>): set<nat> {
    set i | 0 <= i < |trades| :: trades[i].id
  }

  function IdsAt(trades: seq<ExchangeTrade>, ts: int): set<nat> {
    set i | 0 <= i < |trades| && trades[i].ts == ts :: trades[i].id
  }

  /** The cursor moves to the newest trade and remembers the ids that share its time. */
  function Moved(c: Cursor, unseen: seq<ExchangeTrade>): Cursor {
    if unseen == [] then c
    else
      var newest := NewestTs(unseen);
      if Some(newest) == c.at then Cursor(c.at, c.seen + Ids(unseen)) else Cursor(Some(newest), IdsAt(unseen, newest))
  }

  // ----- fills -----

  function Stamped(o: LiveOrder, f: Fill): LiveOrder {
    o.(status := Filled, filledPrice := Some(f.price), filledTs := Some(f.ts), fee := f.fee, tier := f.tier)
  }

  function Adopted(txid: Txid, f: Fill): LiveOrder {
    Stamped(LiveOrder(Unattributed(txid), f.side, Market, f.size, Open, Some(txid), None, None, 0.0, None), f)
  }

  /** One exchange order's trades become one fill, of the order that placed it or of a
      synthetic one. */
  function GroupFill(st: VenueState, pair: Pair, txid: Txid, group: seq<ExchangeTrade>): Fill
    requires group != []
  {
    Aggregate(if txid in st.byTxid then st.byTxid[txid] else Unattributed(txid), pair, group)
  }

  function GroupApplied(st: VenueState, txid: Txid, f: Fill): VenueState {
    if txid !in st.byTxid then
      st.(orders := st.orders[Unattributed(txid) := Adopted(txid, f)], byTxid := st.byTxid[txid := Unattributed(txid)],
          newOrders := st.newOrders + [Adopted(txid, f)])
    else if st.byTxid[txid] in st.orders then
      st.(orders := st.orders[st.byTxid[txid] := Stamped(st.orders[st.byTxid[txid]], f)])
    else st
  }

  datatype Fills = Fills(state: VenueState, fills: seq<Fill>)

  /** The groups of `txids` turned into fills, one after the other. */
  function FillGroups(st: VenueState, pair: Pair, trades: seq<ExchangeTrade>, txids: seq<Txid>): (r: Fills)
    requires forall x :: x in txids ==> Of(trades, x) != []
    ensures |r.fills| == |txids|
  {
    if txids == [] then Fills(st, [])
    else
      var last := |txids| - 1;
      var before := FillGroups(st, pair, trades, txids[..last]);
      var f := GroupFill(before.state, pair, txids[last], Of(trades, txids[last]));
      Fills(GroupApplied(before.state, txids[last], f), before.fills + [f])
  }

  function FillsFrom(st: VenueState, pair: Pair, trades: seq<ExchangeTrade>): (r: Fills)
    ensures |r.fills| == |Txids(trades)|
  {
    TxidsAre(trades);
    FillGroups(st, pair, trades, Txids(trades))
  }

  // ----- pruning, cancelling, finalizing -----

  predicate Tracks(tracked: seq<Tracked>, id: OrderId) {
    exists i :: 0 <= i < |tracked| && tracked[i].id == id
  }

  predicate TracksTxid(tracked: seq<Tracked>, txid: Txid) {
    exists i :: 0 <= i < |tracked| && tracked[i].txid == txid
  }

  /** Closed orders are dropped, unless they are still tracked. */
  function Pruned(st: VenueState): VenueState {
    var orders := map id | id in st.orders
                         && (Tracks(st.tracked, id)
                             || !(st.orders[id].status.Filled? || st.orders[id].status.Cancelled?))
                      :: st.orders[id];
    st.(orders := orders,
        byTxid := map x | x in st.byTxid && (TracksTxid(st.tracked, x) || st.byTxid[x] in orders) :: st.byTxid[x])
  }

  /** The tracked orders whose cancel failed. */
  function StuckOf(tracked: seq<Tracked>, cancelled: CancelAnswers): seq<Tracked> {
    if tracked == [] then []
    else
      var t := tracked[|tracked| - 1];
      StuckOf(tracked[..|tracked| - 1], cancelled) + (if cancelled(t.txid) then [] else [t])
  }

  /** Retire one order: stuck and filled ones are left alone, the rest expired unfilled. */
  function Retired(st: VenueState, t: Tracked, stuck: seq<Tracked>): VenueState {
    if Tracks(stuck, t.id) || t.id !in st.orders || st.orders[t.id].status.Filled? then st
    else
      var o := st.orders[t.id].(status := Cancelled);
      st.(orders := st.orders[t.id := o], expired := st.expired + [o])
  }

  function RetiredAll(st: VenueState, tracked: seq<Tracked>, stuck: seq<Tracked>): VenueState {
    if tracked == [] then st
    else Retired(RetiredAll(st, tracked[..|tracked| - 1], stuck), tracked[|tracked| - 1], stuck)
  }

  function Finalized(st: VenueState, stuck: seq<Tracked>): VenueState {
    RetiredAll(st, st.tracked, stuck).(tracked := stuck)
  }

  /** The end of a candle, once every cancel has been answered: poll (None when it fails), turn
      the new trades into fills, retire the orders. */
  function Closed(st: VenueState, pair: Pair, stuck: seq<Tracked>, answer: Option<seq<ExchangeTrade>>): (r: Fills)
    ensures |r.fills| == |Txids(Unread(answer, st.seen))|
  {
    var unseen := Unread(answer, st.seen);
    var c := Moved(Cursor(st.cursor, st.seen), unseen);
    var r := FillsFrom(st.(cursor := c.at, seen := c.seen), pair, unseen);
    Fills(Finalized(r.state, stuck), r.fills)
  }

  /** Every tracked order is on file. */
  ghost predicate OnFile(st: VenueState) {
    forall i :: 0 <= i < |st.tracked| ==> st.tracked[i].id in st.orders
  }

  /** What the exchange answers to a placement. */
  datatype Placement = Placed(txid: Txid) | WouldTakeLiquidity | Refused

  function Submitted(st: VenueState, o: LiveOrder, answer: Placement): VenueState {
    match answer
    case Placed(txid) =>
      st.(orders := st.orders[o.id := o.(txid := Some(txid))], tracked := st.tracked + [Tracked(o.id, txid)],
          byTxid := st.byTxid[txid := o.id])
    case WouldTakeLiquidity =>
      st.(orders := st.orders[o.id := o.(status := Cancelled)], expired := st.expired + [o.(status := Cancelled)])
    case Refused =>
      st.(orders := st.orders[o.id := o.(status := Rejected)], expired := st.expired + [o.(status := Rejected)])
  }

  // ----- lemmas on the pieces -----

  /** Pruning forgets only orders nobody waits for: what is tracked and what is still open stays, a
      trade of a remembered txid is filed under the same order as before, any other trade becomes an
      unattributed order's. Pruning again forgets nothing more. */
  lemma PruningForgetsOnlyClosed(st: VenueState, pair: Pair, txid: Txid, group: seq<ExchangeTrade>)
    requires group != []
    ensures forall id :: id in st.orders && (Tracks(st.tracked, id) || st.orders[id].status.Open?)
              ==> id in Pruned(st).orders && Pruned(st).orders[id] == st.orders[id]
    ensures var remembered := TracksTxid(st.tracked, txid)
                              || (txid in st.byTxid && st.byTxid[txid] in Pruned(st).orders);
            if remembered then GroupFill(Pruned(st), pair, txid, group) == GroupFill(st, pair, txid, group)
            else GroupFill(Pruned(st), pair, txid, group).orderId == Unattributed(txid)
    ensures forall id :: id in Pruned(st).orders && !Tracks(st.tracked, id)
              ==> id in st.orders && (st.orders[id].status == Open || st.orders[id].status == Rejected)
    ensures Pruned(Pruned(st)) == Pruned(st)
  {
    assert Pruned(Pruned(st)).orders == Pruned(st).orders;
    assert Pruned(Pruned(st)).byTxid == Pruned(st).byTxid;
  }

  lemma {:induction false} UnseenElements(answer: seq<ExchangeTrade>, seen: set<nat>, t: ExchangeTrade)
    ensures t in Unseen(answer, seen) <==> t in answer && t.id !in seen
  {
    if answer != [] {
      UnseenElements(answer[..|answer| - 1], seen, t);
      assert answer == answer[..|answer| - 1] + [answer[|answer| - 1]];
    }
  }

  lemma {:induction false} FillGroupsKeepsRest(st: VenueState, pair: Pair, trades: seq<ExchangeTrade>, txids: seq<Txid>)
    requires forall x :: x in txids ==> Of(trades, x) != []
    ensures var r := FillGroups(st, pair, trades, txids).state;
            && r.tracked == st.tracked && r.expired == st.expired && r.cursor == st.cursor && r.seen == st.seen
            && st.orders.Keys <= r.orders.Keys && st.byTxid.Keys <= r.byTxid.Keys
            && (forall x :: x in st.byTxid ==> r.byTxid[x] == st.byTxid[x])
            && (forall x :: x in r.byTxid ==> x in st.byTxid || r.byTxid[x] == Unattributed(x))
  {
    if txids != [] {
      FillGroupsKeepsRest(st, pair, trades, txids[..|txids| - 1]);
    }
  }

  lemma {:induction false} FillGroupsNext(st: VenueState, pair: Pair, trades: seq<ExchangeTrade>, txids: seq<Txid>,
                                          i: nat)
    requires i < |txids| && forall x :: x in txids ==> Of(trades, x) != []
    ensures forall x :: x in txids[..i + 1] ==> Of(trades, x) != []
    ensures var before := FillGroups(st, pair, trades, txids[..i]);
            var f := GroupFill(before.state, pair, txids[i], Of(trades, txids[i]));
            FillGroups(st, pair, trades, txids[..i + 1])
                == Fills(GroupApplied(before.state, txids[i], f), before.fills + [f])
  {
    assert txids[..i + 1][..i] == txids[..i];
  }

  lemma {:induction false} RetiredGrows(st: VenueState, tracked: seq<Tracked>, i: nat, stuck: seq<Tracked>)
    requires i < |tracked|
    ensures RetiredAll(st, tracked[..i + 1], stuck) == Retired(RetiredAll(st, tracked[..i], stuck), tracked[i], stuck)
  {
    assert tracked[..i + 1][..i] == tracked[..i];
  }

  lemma {:induction false} RetiredKeepsFile(st: VenueState, tracked: seq<Tracked>, stuck: seq<Tracked>)
    ensures var r := RetiredAll(st, tracked, stuck);
            r.orders.Keys == st.orders.Keys && r.tracked == st.tracked && r.byTxid == st.byTxid
            && r.newOrders == st.newOrders && r.cursor == st.cursor && r.seen == st.seen
  {
    if tracked != [] {
      RetiredKeepsFile(st, tracked[..|tracked| - 1], stuck);
    }
  }

  // ----- the venue object -----

  class KrakenVenue {
    const pair: Pair
    var orders: map<OrderId, LiveOrder>
    var tracked: seq<Tracked>
    var byTxid: map<Txid, OrderId>
    var expired: seq<LiveOrder>
    var newOrders: seq<LiveOrder>
    var cursor: Option<int>
    var seen: set<nat>

    constructor (pair: Pair, tradesSince: Option<int>, seenTradeIds: set<nat>)
      ensures this.pair == pair
      ensures State() == VenueState(map[], [], map[], [], [], tradesSince, seenTradeIds)
    {
      this.pair := pair;
      orders, tracked, byTxid := map[], [], map[];
      expired, newOrders := [], [];
      cursor, seen := tradesSince, seenTradeIds;
    }

    ghost function State(): VenueState
      reads this
    {
      VenueState(orders, tracked, byTxid, expired, newOrders, cursor, seen)
    }

    /** Place an order whose size and price the exchange accepts. */
    method Submit(o: LiveOrder, answer: Placement)
      modifies this
      ensures State() == Submitted(old(State()), o, answer)
    {
      match answer {
        case Placed(txid) =>
          orders := orders[o.id := o.(txid := Some(txid))];
          tracked := tracked + [Tracked(o.id, txid)];
          byTxid := byTxid[txid := o.id];
        case WouldTakeLiquidity =>
          orders := orders[o.id := o.(status := Cancelled)];
          expired := expired + [o.(status := Cancelled)];
        case Refused =>
          orders := orders[o.id := o.(status := Rejected)];
          expired := expired + [o.(status := Rejected)];
      }
    }

    /** Close out the candle: cancel what is open, then read what happened. */
    method OnCandle(cancelled: CancelAnswers, answer: Option<seq<ExchangeTrade>>) returns (fills: seq<Fill>)
      requires OnFile(State())
      modifies this
      ensures var was := Pruned(old(State()));
              Fills(State(), fills) == Closed(was, pair, StuckOf(was.tracked, cancelled), answer)
      ensures OnFile(State())
    {
      PruneOrders();
      ghost var was := State();
      var stuck := CancelTracked(cancelled);
      StuckTracked(was.tracked, cancelled);
      var trades := PollTrades(answer);
      ghost var polled := State();
      FillGroupsKeep(polled, pair, trades);
      fills := FillsFromTrades(trades);
      RetiredKeepsFile(State(), tracked, stuck);
      Finalize(stuck);
    }

    /** Drop closed orders to bound memory. */
    method PruneOrders()
      modifies this`orders, this`byTxid
      ensures State() == Pruned(old(State()))
      ensures old(OnFile(State())) ==> OnFile(State())
    {
      var kept := map id | id in orders
          && (Tracks(tracked, id) || !(orders[id].status.Filled? || orders[id].status.Cancelled?))
                    :: orders[id];
      byTxid := map x | x in byTxid && (TracksTxid(tracked, x) || byTxid[x] in kept) :: byTxid[x];
      orders := kept;
    }

    /** Try to cancel every tracked order; the ones still open afterwards. */
    method CancelTracked(cancelled: CancelAnswers) returns (stuck: seq<Tracked>)
      ensures stuck == StuckOf(tracked, cancelled)
    {
      stuck := [];
      for i := 0 to |tracked|
        invariant stuck == StuckOf(tracked[..i], cancelled)
      {
        assert tracked[..i + 1][..i] == tracked[..i];
        if !cancelled(tracked[i].txid) {
          stuck := stuck + [tracked[i]];
        }
      }
      assert tracked[..|tracked|] == tracked;
    }

    /** New account trades since the cursor, deduplicated across ties. */
    method PollTrades(answer: Option<seq<ExchangeTrade>>) returns (unseen: seq<ExchangeTrade>)
      modifies this`cursor, this`seen
      ensures unseen == Unread(answer, old(seen))
      ensures Cursor(cursor, seen) == Moved(Cursor(old(cursor), old(seen)), unseen)
    {
      if answer.None? {
        return [];
      }
      unseen := Unseen(answer.value, seen);
      if unseen == [] {
        return;
      }
      var newest := NewestTs(unseen);
      if Some(newest) == cursor {
        seen := seen + Ids(unseen);
      } else {
        cursor := Some(newest);
        seen := IdsAt(unseen, newest);
      }
    }

    /** Group trades by exchange order and turn each group into one fill. */
    method FillsFromTrades(trades: seq<ExchangeTrade>) returns (fills: seq<Fill>)
      modifies this`orders, this`byTxid, this`newOrders
      ensures Fills(State(), fills) == FillsFrom(old(State()), pair, trades)
    {
      var txids, groups := GroupByTxid(trades);
      TxidsAre(trades);
      fills := [];
      ghost var was := State();
      for i := 0 to |txids|
        invariant Fills(State(), fills) == FillGroups(was, pair, trades, txids[..i])
      {
        FillGroupsNext(was, pair, trades, txids, i);
        assert txids[i] in txids;
        var f := FillGroup(txids[i], groups[txids[i]]);
        fills := fills + [f];
      }
      assert txids[..|txids|] == txids;
    }

    /** One order's trades: stamped onto the order that placed it, or adopted as an unattributed one. */
    method FillGroup(txid: Txid, group: seq<ExchangeTrade>) returns (f: Fill)
      requires group != []
      modifies this`orders, this`byTxid, this`newOrders
      ensures f == GroupFill(old(State()), pair, txid, group) && State() == GroupApplied(old(State()), txid, f)
    {
      f := Aggregate(if txid in byTxid then byTxid[txid] else Unattributed(txid), pair, group);
      if txid !in byTxid {
        orders := orders[Unattributed(txid) := Adopted(txid, f)];
        byTxid := byTxid[txid := Unattributed(txid)];
        newOrders := newOrders + [Adopted(txid, f)];
      } else if byTxid[txid] in orders {
        orders := orders[byTxid[txid] := Stamped(orders[byTxid[txid]], f)];
      }
    }

    /** Retire this candle's orders: filled ones are done, the rest expired. */
    method Finalize(stuck: seq<Tracked>)
      requires OnFile(State())
      modifies this`orders, this`expired, this`tracked
      ensures State() == Finalized(old(State()), stuck)
    {
      for i := 0 to |tracked|
        invariant tracked == old(tracked) && orders.Keys == old(orders).Keys
        invariant State() == RetiredAll(old(State()), tracked[..i], stuck)
      {
        RetiredGrows(old(State()), tracked, i, stuck);
        var t := tracked[i];
        if Tracks(stuck, t.id) || orders[t.id].status.Filled? {
          continue;
        }
        var o := orders[t.id].(status := Cancelled);
        orders := orders[t.id := o];
        expired := expired + [o];
      }
      assert tracked[..|tracked|] == tracked;
      tracked := stuck;
    }
  }

  lemma FillGroupsKeep(st: VenueState, pair: Pair, trades: seq<ExchangeTrade>)
    ensures var r := FillsFrom(st, pair, trades).state; r.tracked == st.tracked && st.orders.Keys <= r.orders.Keys
  {
    TxidsAre(trades);
    FillGroupsKeepsRest(st, pair, trades, Txids(trades));
  }

  lemma {:induction false} StuckTracked(tracked: seq<Tracked>, cancelled: CancelAnswers)
    ensures forall i :: 0 <= i < |StuckOf(tracked, cancelled)| ==> StuckOf(tracked, cancelled)[i] in tracked
  {
    if tracked != [] {
      StuckTracked(tracked[..|tracked| - 1], cancelled);
    }
  }
}
