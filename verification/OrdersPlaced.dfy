/** What a candle's decision leaves waiting: exactly the granted intents, as orders with the granted
    size (kaupo/core/engine.py, kaupo/venues/paper.py). */
module OrdersPlaced {
  import opened Domain
  import opened PaperVenue
  import opened Engine
  import opened BatchRules
  import Risk = RiskManager
  import R = PerpRun

  /** The order of a granted intent: its own terms, the granted size, stamped with the candle. */
  ghost predicate OrderOf(o: Order, a: Risk.Assessment, ts: int) {
    && o.pair == a.intent.pair && o.side == a.intent.side && o.size == a.size
    && o.limitPrice == a.intent.limitPrice && (o.orderType == Limit <==> a.intent.limitPrice.Some?)
    && o.stopLoss == a.intent.stopLoss && o.takeProfit == a.intent.takeProfit
    && o.createdTs == ts && o.status == Open && o.filledPrice.None? && o.filledTs.None? && o.fee == 0.0
  }

  /** The granted assessments, in order. */
  function GrantedOf(batch: seq<Risk.Assessment>): seq<Risk.Assessment> {
    if batch == [] then [] else (if Granted(batch[0]) then [batch[0]] else []) + GrantedOf(batch[1..])
  }

  function OfType(orders: seq<Order>, t: OrderType): seq<Order> {
    if orders == [] then [] else (if orders[0].orderType == t then [orders[0]] else []) + OfType(orders[1..], t)
  }

  /** `orders` are the granted intents' orders, numbered on from the venue's next number. */
  ghost predicate OrdersOf(orders: seq<Order>, granted: seq<Risk.Assessment>, ts: int, first: nat) {
    && |orders| == |granted|
    && forall k :: 0 <= k < |orders| ==> OrderOf(orders[k], granted[k], ts) && orders[k].id == Local(first + k)
  }

  /** The queues and the counter take the orders, and nothing else moves but the order file. */
  ghost predicate Queued(v: VenueState, after: VenueState, orders: seq<Order>) {
    && after.marketQueue == v.marketQueue + OfType(orders, Market)
    && after.limitOpen == v.limitOpen + OfType(orders, Limit)
    && after.nextId == v.nextId + |orders|
    && after == v.(marketQueue := after.marketQueue, limitOpen := after.limitOpen, nextId := after.nextId,
                   orders := after.orders)
  }

  /** The orders are on file, and whatever had an older number stays on file as it was. */
  ghost predicate Filed(v: VenueState, after: VenueState, orders: seq<Order>) {
    && (forall k :: 0 <= k < |orders| ==> orders[k].id in after.orders && after.orders[orders[k].id] == orders[k])
    && (forall id :: id in v.orders && !(id.Local? && id.n >= v.nextId) ==>
          id in after.orders && after.orders[id] == v.orders[id])
  }

  ghost predicate Placed(v: VenueState, after: VenueState, orders: seq<Order>) {
    Queued(v, after, orders) && Filed(v, after, orders)
  }

  lemma {:induction false} SubmittedOrders(v: VenueState, batch: seq<Risk.Assessment>, ts: int)
    returns (orders: seq<Order>)
    ensures OrdersOf(orders, GrantedOf(batch), ts, v.nextId)
    ensures Placed(v, SubmitAll(v, batch, ts), orders)
    decreases |batch|
  {
    if batch == [] {
      orders := [];
    } else if batch[0].decision.Refused? {
      orders := SubmittedOrders(v, batch[1..], ts);
      assert [] + GrantedOf(batch[1..]) == GrantedOf(batch[1..]);
    } else {
      var o := OrderFrom(batch[0], ts, v.nextId);
      var next := Submit(v, o).(nextId := v.nextId + 1);
      var rest := SubmittedOrders(next, batch[1..], ts);
      orders := [o] + rest;
      OrdersFirst(o, batch[0], rest, GrantedOf(batch[1..]), ts, v.nextId);
      QueuedFirst(v, o, next, SubmitAll(next, batch[1..], ts), rest);
      FiledFirst(v, o, next, SubmitAll(next, batch[1..], ts), rest);
    }
  }

  lemma OrdersFirst(o: Order, a: Risk.Assessment, rest: seq<Order>, granted: seq<Risk.Assessment>, ts: int, first: nat)
    requires OrderOf(o, a, ts) && o.id == Local(first) && OrdersOf(rest, granted, ts, first + 1)
    ensures OrdersOf([o] + rest, [a] + granted, ts, first)
  {
    forall k | 1 <= k < |[o] + rest|
      ensures OrderOf(([o] + rest)[k], ([a] + granted)[k], ts) && ([o] + rest)[k].id == Local(first + k)
    {
      assert ([o] + rest)[k] == rest[k - 1] && ([a] + granted)[k] == granted[k - 1];
    }
  }

  lemma QueuedFirst(v: VenueState, o: Order, next: VenueState, after: VenueState, rest: seq<Order>)
    requires next == Submit(v, o).(nextId := v.nextId + 1) && Queued(next, after, rest)
    ensures Queued(v, after, [o] + rest)
  {
    assert ([o] + rest)[1..] == rest;
  }

  lemma FiledFirst(v: VenueState, o: Order, next: VenueState, after: VenueState, rest: seq<Order>)
    requires o.id == Local(v.nextId) && next == Submit(v, o).(nextId := v.nextId + 1)
    requires Filed(next, after, rest)
    ensures Filed(v, after, [o] + rest)
  {
    var orders := [o] + rest;
    forall k | 0 <= k < |orders| ensures orders[k].id in after.orders && after.orders[orders[k].id] == orders[k] {
      if k > 0 {
        assert orders[k] == rest[k - 1];
      }
    }
  }

  /** A candle that is neither halted, paused nor killed leaves waiting, behind what waited before,
      exactly one order per granted intent, in order and numbered on; any other leaves the venue as
      the fill loop did. Only a kill that is not halted or paused marks the run killed. */
  lemma DecisionPlacesWhatIsGranted(cfg: EngineConfig, t: Settlement, killed: bool, i: Input)
    returns (orders: seq<Order>)
    requires cfg.risk.costRate != -1.0
    ensures var st := RiskStateAt(cfg, t.books, i.candle);
            var after := Decide(cfg, t, killed, i);
            var acts := !after.risk.halted && i.control.Proceed?;
            && OrdersOf(orders, if acts then GrantedOf(Risk.AssessSpot(cfg.risk, after.risk.cooldown, i.intents, st))
                                else [], i.candle.ts, t.venue.nextId)
            && Placed(t.venue, after.venue, orders)
            && after.books == t.books
            && (after.killed <==> killed || (i.control.Kill? && !after.risk.halted))
  {
    var st := RiskStateAt(cfg, t.books, i.candle);
    var risk := Risk.OnCandle(cfg.risk, t.risk, st.day, Risk.FloorEquity(st));
    if !risk.halted && i.control.Proceed? {
      orders := SubmittedOrders(t.venue, Risk.AssessSpot(cfg.risk, risk.cooldown, i.intents, st), i.candle.ts);
    } else {
      orders := [];
    }
  }

  /** The same of a perp run: its batch is the perp one, and it decides on the books its funding left. */
  lemma {:induction false} PerpDecisionPlacesWhatIsGranted(cfg: R.PerpConfig, t: Settlement, killed: bool, i: Input)
    returns (orders: seq<Order>)
    requires cfg.engine.risk.costRate != -1.0 && cfg.engine.risk.perp
    ensures var st := RiskStateAt(cfg.engine, t.books, i.candle);
            var after := R.Decide(cfg, t, killed, i);
            var acts := !after.risk.halted && i.control.Proceed?;
            var batch := Risk.AssessPerpFrom(cfg.engine.risk, after.risk.cooldown, i.intents, st, Risk.SizesOf(st));
            && OrdersOf(orders, if acts then GrantedOf(batch) else [], i.candle.ts, t.venue.nextId)
            && Placed(t.venue, after.venue, orders)
            && after.books == t.books
            && (after.killed <==> killed || (i.control.Kill? && !after.risk.halted))
  {
    var st := RiskStateAt(cfg.engine, t.books, i.candle);
    var risk := Risk.OnCandle(cfg.engine.risk, t.risk, st.day, Risk.FloorEquity(st));
    if !risk.halted && i.control.Proceed? {
      var batch := Risk.AssessPerpFrom(cfg.engine.risk, risk.cooldown, i.intents, st, Risk.SizesOf(st));
      orders := SubmittedOrders(t.venue, batch, i.candle.ts);
    } else {
      orders := [];
    }
  }
}
