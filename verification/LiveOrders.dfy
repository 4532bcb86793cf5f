/** What a live candle leaves on file: the exchange's trades are written on the orders they belong to,
    and every order it stops tracking has an end (kaupo/venues/kraken_live.py). */
module LiveOrders {
  import opened Domain
  import opened ExchangeTrades
  import opened KrakenVenue

  /** Each order answers one txid, and an unattributed id belongs to its own. */
  ghost predicate OwnTxids(byTxid: map<Txid, OrderId>) {
    && (forall x, y :: x in byTxid && y in byTxid && byTxid[x] == byTxid[y] ==> x == y)
    && (forall x, y :: x in byTxid && byTxid[x] == Unattributed(y) ==> x == y)
  }

  /** The order with a fill written on it. */
  function WithFill(o: LiveOrder, f: Fill): LiveOrder {
    LiveOrder(o.id, o.side, o.kind, o.size, Filled, o.txid, Some(f.price), Some(f.ts), f.fee, f.tier)
  }

  /** An order this venue did not place, as its trades tell. */
  function Foreign(x: Txid, f: Fill): LiveOrder {
    LiveOrder(Unattributed(x), f.side, Market, f.size, Filled, Some(x), Some(f.price), Some(f.ts), f.fee, f.tier)
  }

  /** Where the trades of a txid are filed. */
  function Target(st: VenueState, x: Txid): OrderId {
    if x in st.byTxid then st.byTxid[x] else Unattributed(x)
  }

  /** The fill of a txid is on file: on the order that placed it, or as a new order. */
  ghost predicate OnFileAs(st: VenueState, r: VenueState, x: Txid, f: Fill) {
    && f.orderId == Target(st, x)
    && (if x in st.byTxid then
          f.orderId in st.orders ==> f.orderId in r.orders && r.orders[f.orderId] == WithFill(st.orders[f.orderId], f)
        else
          f.orderId in r.orders && r.orders[f.orderId] == Foreign(x, f) && Foreign(x, f) in r.newOrders
          && x in r.byTxid && r.byTxid[x] == f.orderId)
  }

  /** `xs` are filed, and nothing else moved. */
  ghost predicate FiledAll(st: VenueState, r: Fills, xs: seq<Txid>) {
    && |r.fills| == |xs|
    && (forall k :: 0 <= k < |xs| ==> OnFileAs(st, r.state, xs[k], r.fills[k]))
    && (forall id :: id in st.orders && !Targets(st, xs, id) ==>
          id in r.state.orders && r.state.orders[id] == st.orders[id])
    && r.state.byTxid.Keys == st.byTxid.Keys + (set x | x in xs)
    && (forall x :: x in st.byTxid ==> r.state.byTxid[x] == st.byTxid[x])
    && (forall e :: e in r.state.newOrders ==>
          e in st.newOrders || exists k :: 0 <= k < |xs| && xs[k] !in st.byTxid && e == Foreign(xs[k], r.fills[k]))
  }

  ghost predicate Targets(st: VenueState, xs: seq<Txid>, id: OrderId) {
    exists x :: x in xs && Target(st, x) == id
  }

  lemma TargetsApart(st: VenueState, x: Txid, y: Txid)
    requires OwnTxids(st.byTxid) && x != y
    ensures Target(st, x) != Target(st, y)
  {}

  lemma OneFiled(st: VenueState, pair: Pair, r: Fills, xs: seq<Txid>, x: Txid, group: seq<ExchangeTrade>)
    requires OwnTxids(st.byTxid) && FiledAll(st, r, xs) && x !in xs && group != []
    ensures var f := GroupFill(r.state, pair, x, group);
            FiledAll(st, Fills(GroupApplied(r.state, x, f), r.fills + [f]), xs + [x])
  {
    var f := GroupFill(r.state, pair, x, group);
    var after := Fills(GroupApplied(r.state, x, f), r.fills + [f]);
    assert x in r.state.byTxid <==> x in st.byTxid;
    assert f.orderId == Target(st, x) && (x in st.byTxid ==> !Targets(st, xs, f.orderId)) by {
      if Targets(st, xs, f.orderId) {
        var y :| y in xs && Target(st, y) == f.orderId;
        TargetsApart(st, x, y);
      }
    }
    forall k | 0 <= k < |xs + [x]| ensures OnFileAs(st, after.state, (xs + [x])[k], after.fills[k]) {
      if k < |xs| {
        assert OnFileAs(st, r.state, xs[k], r.fills[k]);
        TargetsApart(st, x, xs[k]);
      }
    }
    OthersFiled(st, r, xs, x, after);
  }

  lemma OthersFiled(st: VenueState, r: Fills, xs: seq<Txid>, x: Txid, after: Fills)
    requires FiledAll(st, r, xs) && |after.fills| == |xs| + 1 && after.fills[..|xs|] == r.fills
    requires var f := after.fills[|xs|]; f.orderId == Target(st, x) && after.state == GroupApplied(r.state, x, f)
    ensures forall id :: id in st.orders && !Targets(st, xs + [x], id) ==>
        id in after.state.orders && after.state.orders[id] == st.orders[id]
    ensures after.state.byTxid.Keys == st.byTxid.Keys + (set y | y in xs + [x])
    ensures forall y :: y in st.byTxid ==> after.state.byTxid[y] == st.byTxid[y]
    ensures forall e :: e in after.state.newOrders ==>
        e in st.newOrders
        || exists k :: 0 <= k < |xs + [x]| && (xs + [x])[k] !in st.byTxid && e == Foreign((xs + [x])[k], after.fills[k])
  {
    var all := xs + [x];
    assert forall y :: y in all <==> y in xs || y == x;
    forall id | id in st.orders && !Targets(st, all, id)
      ensures id in after.state.orders && after.state.orders[id] == st.orders[id]
    {
      assert !Targets(st, xs, id);
      assert x in all;
    }
    forall e | e in after.state.newOrders && e !in st.newOrders
      ensures exists k :: 0 <= k < |all| && all[k] !in st.byTxid && e == Foreign(all[k], after.fills[k])
    {
      if e in r.state.newOrders {
        var k :| 0 <= k < |xs| && xs[k] !in st.byTxid && e == Foreign(xs[k], r.fills[k]);
        assert all[k] == xs[k] && after.fills[k] == after.fills[..|xs|][k];
      } else {
        assert all[|xs|] == x && e == Foreign(x, after.fills[|xs|]);
      }
    }
  }

  lemma {:induction false} GroupsFiled(st: VenueState, pair: Pair, trades: seq<ExchangeTrade>, xs: seq<Txid>)
    requires OwnTxids(st.byTxid) && Distinct(xs) && forall x :: x in xs ==> Of(trades, x) != []
    ensures FiledAll(st, FillGroups(st, pair, trades, xs), xs)
  {
    if xs != [] {
      var init, last := xs[..|xs| - 1], xs[|xs| - 1];
      assert xs == init + [last];
      GroupsFiled(st, pair, trades, init);
      OneFiled(st, pair, FillGroups(st, pair, trades, init), init, last, Of(trades, last));
    }
  }

  /** The fills of a poll are on file: price, time, fee and tier are written on the order whose txid
      traded, and an order placed elsewhere is reported as a new one with its trades' side and size.
      No other order moves. */
  lemma {:induction false} TradesAreFiled(st: VenueState, pair: Pair, trades: seq<ExchangeTrade>)
    requires OwnTxids(st.byTxid)
    ensures FiledAll(st, FillsFrom(st, pair, trades), Txids(trades))
  {
    TxidsAre(trades);
    GroupsFiled(st, pair, trades, Txids(trades));
  }

  // ----- retiring -----

  /** The order cancelled, otherwise as it was. */
  function AsCancelled(o: LiveOrder): LiveOrder {
    LiveOrder(o.id, o.side, o.kind, o.size, Cancelled, o.txid, o.filledPrice, o.filledTs, o.fee, o.tier)
  }

  /** The order is given up: neither stuck on the exchange nor filled. */
  predicate GivenUp(st: VenueState, stuck: seq<Tracked>, id: OrderId) {
    !Tracks(stuck, id) && id in st.orders && st.orders[id].status != Filled
  }

  predicate OwnIds(tracked: seq<Tracked>) {
    forall i, j :: 0 <= i < j < |tracked| ==> tracked[i].id != tracked[j].id
  }

  ghost predicate RetiredAs(st: VenueState, r: VenueState, tracked: seq<Tracked>, stuck: seq<Tracked>) {
    && r.orders.Keys == st.orders.Keys
    && (forall id :: id in st.orders ==>
          r.orders[id] == if Tracks(tracked, id) && GivenUp(st, stuck, id) then AsCancelled(st.orders[id])
                          else st.orders[id])
    && (forall e :: e in r.expired <==>
          e in st.expired
          || exists i :: 0 <= i < |tracked| && GivenUp(st, stuck, tracked[i].id)
                         && e == AsCancelled(st.orders[tracked[i].id]))
  }

  lemma {:induction false} AllRetired(st: VenueState, tracked: seq<Tracked>, stuck: seq<Tracked>)
    requires OwnIds(tracked)
    ensures RetiredAs(st, RetiredAll(st, tracked, stuck), tracked, stuck)
  {
    if tracked != [] {
      var init, t := tracked[..|tracked| - 1], tracked[|tracked| - 1];
      assert tracked == init + [t];
      AllRetired(st, init, stuck);
      assert !Tracks(init, t.id);
      OneRetired(st, RetiredAll(st, init, stuck), init, t, stuck);
    }
  }

  lemma OneRetired(st: VenueState, r: VenueState, init: seq<Tracked>, t: Tracked, stuck: seq<Tracked>)
    requires RetiredAs(st, r, init, stuck) && !Tracks(init, t.id)
    ensures RetiredAs(st, Retired(r, t, stuck), init + [t], stuck)
  {
    var all := init + [t];
    assert all[|init|] == t;
    forall id ensures Tracks(all, id) <==> Tracks(init, id) || id == t.id {
      if Tracks(init, id) {
        var i :| 0 <= i < |init| && init[i].id == id;
        assert all[i].id == id;
      }
    }
    forall i | 0 <= i < |init| ensures all[i] == init[i] {}
  }

  /** What one live candle makes of an order it tracked, whatever the exchange answers: trades of it in
      the poll fill it; else a failed cancel leaves it as it was and tracked; else it keeps a fill of an
      earlier candle, or is cancelled and reported as expired. */
  lemma TrackedOrderEnds(st: VenueState, pair: Pair, stuck: seq<Tracked>, answer: Option<seq<ExchangeTrade>>, i: nat)
    requires OwnTxids(st.byTxid) && OwnIds(st.tracked) && i < |st.tracked|
    requires st.tracked[i].id in st.orders
    requires st.tracked[i].txid in st.byTxid && st.byTxid[st.tracked[i].txid] == st.tracked[i].id
    ensures var t, o, r := st.tracked[i], st.orders[st.tracked[i].id], Closed(st, pair, stuck, answer);
            && t.id in r.state.orders && r.state.tracked == stuck
            && (t.txid in Txids(Unread(answer, st.seen)) ==>
                  exists f :: f in r.fills && f.orderId == t.id && r.state.orders[t.id] == WithFill(o, f))
            && (t.txid !in Txids(Unread(answer, st.seen)) ==>
                  if Tracks(stuck, t.id) || o.status == Filled then r.state.orders[t.id] == o
                  else r.state.orders[t.id] == AsCancelled(o) && AsCancelled(o) in r.state.expired)
  {
    var t, trades := st.tracked[i], Unread(answer, st.seen);
    var c := Moved(Cursor(st.cursor, st.seen), trades);
    var read := st.(cursor := c.at, seen := c.seen);
    var filled := FillsFrom(read, pair, trades);
    TradesAreFiled(read, pair, trades);
    TxidsAre(trades);
    FillGroupsKeepsRest(read, pair, trades, Txids(trades));
    AllRetired(filled.state, filled.state.tracked, stuck);
    assert Tracks(filled.state.tracked, t.id);
    if t.txid in Txids(trades) {
      var k :| 0 <= k < |Txids(trades)| && Txids(trades)[k] == t.txid;
      assert OnFileAs(read, filled.state, t.txid, filled.fills[k]);
      assert filled.fills[k] in filled.fills;
    } else {
      NotATarget(read, Txids(trades), t);
    }
  }

  lemma NotATarget(st: VenueState, xs: seq<Txid>, t: Tracked)
    requires OwnTxids(st.byTxid) && t.txid in st.byTxid && st.byTxid[t.txid] == t.id && t.txid !in xs
    ensures !Targets(st, xs, t.id)
  {
    if Targets(st, xs, t.id) {
      var y :| y in xs && Target(st, y) == t.id;
      TargetsApart(st, t.txid, y);
    }
  }

  // ----- placing -----

  /** What a placement leaves: an accepted order is open, tracked and found by its txid; one that was
      refused, or would have taken liquidity, is on file as ended and reported as expired. Nothing
      else moves. */
  lemma PlacementIsFiled(st: VenueState, o: LiveOrder, answer: Placement)
    ensures var r := Submitted(st, o, answer);
            && o.id in r.orders && r.orders.Keys == st.orders.Keys + {o.id}
            && (forall id :: id in st.orders && id != o.id ==> r.orders[id] == st.orders[id])
            && (forall e :: e in st.expired ==> e in r.expired)
            && (match answer
                case Placed(x) =>
                  r.orders[o.id] == LiveOrder(o.id, o.side, o.kind, o.size, o.status, Some(x), o.filledPrice,
                                              o.filledTs, o.fee, o.tier)
                  && r.tracked == st.tracked + [Tracked(o.id, x)] && r.expired == st.expired
                  && Target(r, x) == o.id && forall y :: y != x ==> Target(r, y) == Target(st, y)
                case WouldTakeLiquidity =>
                  r.orders[o.id] == AsCancelled(o) && AsCancelled(o) in r.expired
                  && r.tracked == st.tracked && r.byTxid == st.byTxid
                case Refused =>
                  r.orders[o.id].status == Rejected && r.orders[o.id] in r.expired
                  && r.tracked == st.tracked && r.byTxid == st.byTxid)
  {}
}
