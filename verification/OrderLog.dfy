/** What a candle leaves on file: every waiting order ends once, filled or cancelled, as the candle's
    fills tell, and every exit is a new order (kaupo/venues/paper.py). */
module OrderLog {
  import opened Domain
  import opened PaperVenue

  /** The order with its fill written on it. */
  function Settled(o: Order, f: Fill): Order {
    Order(o.id, o.pair, o.side, o.orderType, o.size, o.limitPrice, o.stopLoss, o.takeProfit, o.createdTs,
          Filled, Some(f.price), Some(f.ts), f.fee)
  }

  /** The order cancelled without a fill. */
  function Dropped(o: Order): Order {
    Order(o.id, o.pair, o.side, o.orderType, o.size, o.limitPrice, o.stopLoss, o.takeProfit, o.createdTs,
          Cancelled, o.filledPrice, o.filledTs, o.fee)
  }

  /** The exit that a fill of the sweep answers. */
  function ExitOf(f: Fill, c: Candle): Order {
    Order(f.orderId, f.pair, f.side, Market, f.size, None, None, None, c.ts, Filled, Some(f.price), Some(f.ts), f.fee)
  }

  ghost predicate FilledBy(fills: seq<Fill>, id: OrderId) {
    exists f :: f in fills && f.orderId == id
  }

  /** The order filled, and the file says how; or it did not, and is reported as expired. */
  ghost predicate EndedOnce(v: VenueState, fills: seq<Fill>, o: Order) {
    && o.id in v.orders
    && (FilledBy(fills, o.id) ==>
          exists f :: f in fills && f.orderId == o.id && v.orders[o.id] == Settled(o, f))
    && (!FilledBy(fills, o.id) ==> v.orders[o.id] == Dropped(o) && Dropped(o) in v.expired)
  }

  predicate DistinctIds(queue: seq<Order>) {
    forall i, j :: 0 <= i < j < |queue| ==> queue[i].id != queue[j].id
  }

  ghost predicate Among(queue: seq<Order>, id: OrderId) {
    exists o :: o in queue && o.id == id
  }

  /** `done` have ended, the fills are theirs, and nothing else was reported. */
  ghost predicate Ended(pr: Progress, done: seq<Order>, expired: seq<Order>, news: seq<Order>) {
    && (forall o :: o in done ==> EndedOnce(pr.venue, pr.fills, o))
    && (forall f :: f in pr.fills ==> Among(done, f.orderId))
    && (forall e :: e in pr.venue.expired ==>
          e in expired || exists o :: o in done && e == Dropped(o) && !FilledBy(pr.fills, o.id))
    && (forall e :: e in expired ==> e in pr.venue.expired)
    && pr.venue.newOrders == news
  }

  /** Nothing of `done` changes when another order ends. */
  lemma OthersStay(pr: Progress, o: Order, p: Order, v: VenueState, fills: seq<Fill>)
    requires EndedOnce(pr.venue, pr.fills, p) && p.id != o.id
    requires p.id in v.orders && v.orders[p.id] == pr.venue.orders[p.id]
    requires fills == pr.fills || exists f :: fills == pr.fills + [f] && f.orderId == o.id
    requires forall e :: e in pr.venue.expired ==> e in v.expired
    ensures EndedOnce(v, fills, p) && (FilledBy(fills, p.id) <==> FilledBy(pr.fills, p.id))
  {
    assert forall f :: f in pr.fills ==> f in fills;
  }

  lemma OneFilled(pr: Progress, done: seq<Order>, o: Order, f: Fill, expired: seq<Order>, news: seq<Order>)
    requires Ended(pr, done, expired, news) && f.orderId == o.id && !Among(done, o.id)
    ensures Ended(Progress(FillOrder(pr.venue, o, f), pr.fills + [f]), done + [o], expired, news)
  {
    var next := Progress(FillOrder(pr.venue, o, f), pr.fills + [f]);
    assert f in next.fills && next.venue.orders[o.id] == Settled(o, f);
    assert o in done + [o];
    forall p | p in done ensures EndedOnce(next.venue, next.fills, p) && p in done + [o] {
      OthersStay(pr, o, p, next.venue, next.fills);
    }
    forall e | e in next.venue.expired && e !in expired
      ensures exists p :: p in done + [o] && e == Dropped(p) && !FilledBy(next.fills, p.id)
    {
      var p :| p in done && e == Dropped(p) && !FilledBy(pr.fills, p.id);
      OthersStay(pr, o, p, next.venue, next.fills);
      assert p in done + [o];
    }
  }

  lemma OneExpired(pr: Progress, done: seq<Order>, o: Order, expired: seq<Order>, news: seq<Order>)
    requires Ended(pr, done, expired, news) && !Among(done, o.id)
    ensures Ended(pr.(venue := ExpireOrder(pr.venue, o)), done + [o], expired, news)
  {
    var next := pr.(venue := ExpireOrder(pr.venue, o));
    assert o in done + [o];
    assert next.venue.expired == pr.venue.expired + [Dropped(o)];
    forall p | p in done ensures EndedOnce(next.venue, next.fills, p) && p in done + [o] {
      OthersStay(pr, o, p, next.venue, next.fills);
    }
    forall f | f in next.fills ensures Among(done + [o], f.orderId) {
      var p :| p in done && p.id == f.orderId;
      assert p in done + [o];
    }
  }

  lemma {:induction false} MarketEnds(cfg: VenueConfig, pr: Progress, done: seq<Order>, queue: seq<Order>, c: Candle,
                                      expired: seq<Order>, news: seq<Order>)
    requires Ended(pr, done, expired, news) && DistinctIds(done + queue)
    ensures Ended(MarketPhase(cfg, pr, queue, c), done + queue, expired, news)
    decreases |queue|
  {
    if queue == [] {
      assert done + queue == done;
    } else {
      NotYet(done, queue);
      OneFilled(pr, done, queue[0], FillMarket(cfg, queue[0], c), expired, news);
      assert done + [queue[0]] + queue[1..] == done + queue;
      MarketEnds(cfg, MarketStep(cfg, pr, queue[0], c), done + [queue[0]], queue[1..], c, expired, news);
    }
  }

  lemma NotYet(done: seq<Order>, queue: seq<Order>)
    requires queue != [] && DistinctIds(done + queue)
    ensures !Among(done, queue[0].id)
  {
    forall o | o in done ensures o.id != queue[0].id {
      var i :| 0 <= i < |done| && done[i] == o;
      assert (done + queue)[i] == o && (done + queue)[|done|] == queue[0];
    }
  }

  lemma {:induction false} LimitsEnd(cfg: VenueConfig, pr: Progress, done: seq<Order>, queue: seq<Order>, c: Candle,
                                     expired: seq<Order>, news: seq<Order>)
    requires Ended(pr, done, expired, news) && DistinctIds(done + queue)
    ensures Ended(LimitPhase(cfg, pr, queue, c), done + queue, expired, news)
    decreases |queue|
  {
    if queue == [] {
      assert done + queue == done;
    } else {
      var o := queue[0];
      NotYet(done, queue);
      match LimitOutcome(cfg, o, c) {
        case Some(f) => OneFilled(pr, done, o, f, expired, news);
        case None => OneExpired(pr, done, o, expired, news);
      }
      assert done + [o] + queue[1..] == done + queue;
      LimitsEnd(cfg, LimitStep(cfg, pr, o, c), done + [o], queue[1..], c, expired, news);
    }
  }

  // ----- the sweep -----

  /** The order file says the same of `id`. */
  predicate SameEntry(a: VenueState, b: VenueState, id: OrderId) {
    (id in a.orders <==> id in b.orders) && (id in a.orders ==> a.orders[id] == b.orders[id])
  }

  /** Fill k is answered by its own new order, the next in number and in the report, and on file. */
  ghost predicate ExitFiled(s: Progress, r: Progress, c: Candle, k: nat)
    requires |s.fills| <= k < |r.fills|
    requires |r.venue.newOrders| == |s.venue.newOrders| + |r.fills| - |s.fills|
  {
    var f := r.fills[k];
    && f.orderId == Local(s.venue.nextId + k - |s.fills|)
    && r.venue.newOrders[|s.venue.newOrders| + k - |s.fills|] == ExitOf(f, c)
    && f.orderId in r.venue.orders && r.venue.orders[f.orderId] == ExitOf(f, c)
  }

  /** The sweep's fills are answered by as many new orders, numbered on from `s`; the rest stays. */
  ghost predicate Exited(s: Progress, r: Progress, c: Candle) {
    && s.fills <= r.fills
    && r.venue.nextId == s.venue.nextId + |r.fills| - |s.fills|
    && |r.venue.newOrders| == |s.venue.newOrders| + |r.fills| - |s.fills| && s.venue.newOrders <= r.venue.newOrders
    && (forall k :: |s.fills| <= k < |r.fills| ==> ExitFiled(s, r, c, k))
    && (forall id: OrderId :: !(id.Local? && id.n >= s.venue.nextId) ==> SameEntry(s.venue, r.venue, id))
    && r.venue.expired == s.venue.expired
    && r.venue.marketQueue == s.venue.marketQueue && r.venue.limitOpen == s.venue.limitOpen
  }

  /** One exit fired: its fill, its order, and its number. */
  lemma FiredIsExit(cfg: VenueConfig, pr: Progress, p: Protection, c: Candle, f: Fill)
    requires CheckProtection(cfg, pr.venue, p, c) == Some(f)
    ensures Exited(pr, Progress(FireProtection(pr.venue, p, f, c), pr.fills + [f]), c)
  {
    var exit := FilledOrder(ExitOrder(pr.venue, p, c), f);
    assert exit == ExitOf(f, c);
    assert FireProtection(pr.venue, p, f, c).newOrders == pr.venue.newOrders + [exit];
    assert FireProtection(pr.venue, p, f, c).orders == pr.venue.orders[exit.id := exit];
  }

  lemma OneExit(cfg: VenueConfig, s: Sweep, p: Protection, c: Candle)
    ensures Exited(s.progress, ProtectionStep(cfg, s, p, c).progress, c)
  {
    var v := s.progress.venue;
    if PositionAt(v, p.entry.pair) > 0.0 && CheckProtection(cfg, v, p, c).Some? {
      FiredIsExit(cfg, s.progress, p, c, CheckProtection(cfg, v, p, c).value);
    }
  }

  lemma ExitsChain(a: Progress, b: Progress, r: Progress, c: Candle)
    requires Exited(a, b, c) && Exited(b, r, c) && |b.fills| <= |a.fills| + 1
    ensures Exited(a, r, c)
  {
    assert a.fills <= r.fills && a.venue.newOrders <= r.venue.newOrders;
    forall k | |a.fills| <= k < |r.fills| ensures ExitFiled(a, r, c, k) {
      if k == |a.fills| && |b.fills| > |a.fills| {
        FirstStays(a, b, r, c);
      } else {
        assert ExitFiled(b, r, c, k);
      }
    }
  }

  /** The exit fired first stays as it was filed. */
  lemma FirstStays(a: Progress, b: Progress, r: Progress, c: Candle)
    requires Exited(a, b, c) && Exited(b, r, c) && |b.fills| == |a.fills| + 1
    ensures |r.venue.newOrders| == |a.venue.newOrders| + |r.fills| - |a.fills| && |a.fills| < |r.fills|
    ensures ExitFiled(a, r, c, |a.fills|)
  {
    var k := |a.fills|;
    assert ExitFiled(a, b, c, k);
    assert b.fills[k] == r.fills[k];
    assert SameEntry(b.venue, r.venue, b.fills[k].orderId);
    assert r.venue.newOrders[|a.venue.newOrders|] == b.venue.newOrders[|a.venue.newOrders|];
  }

  lemma {:induction false} SweepExits(cfg: VenueConfig, s: Sweep, ps: seq<Protection>, c: Candle)
    ensures Exited(s.progress, ProtectionPhase(cfg, s, ps, c).progress, c)
    decreases |ps|
  {
    if ps != [] {
      var next := ProtectionStep(cfg, s, ps[0], c);
      OneExit(cfg, s, ps[0], c);
      SweepExits(cfg, next, ps[1..], c);
      ExitsChain(s.progress, next.progress, ProtectionPhase(cfg, next, ps[1..], c).progress, c);
    }
  }

  // ----- the candle -----

  /** Every waiting order's number was handed out before. */
  ghost predicate Waiting(v: VenueState) {
    && DistinctIds(v.marketQueue + v.limitOpen)
    && (forall o :: o in v.marketQueue + v.limitOpen ==> o.id.Local? && o.id.n < v.nextId)
  }

  /** An older order that no longer waits. */
  ghost predicate Bygone(v: VenueState, id: OrderId) {
    !Among(v.marketQueue + v.limitOpen, id) && id.Local? && id.n < v.nextId
  }

  lemma OwnPhaseEnds(cfg: VenueConfig, v: VenueState, c: Candle)
    requires DistinctIds(v.marketQueue + v.limitOpen)
    ensures Ended(OwnPhase(cfg, v, c), v.marketQueue + v.limitOpen, v.expired, v.newOrders)
  {
    var start := Progress(PruneOrders(v).(marketQueue := []), []);
    assert Ended(start, [], v.expired, v.newOrders);
    var all := v.marketQueue + v.limitOpen;
    assert [] + v.marketQueue == v.marketQueue;
    forall i, j | 0 <= i < j < |v.marketQueue| ensures v.marketQueue[i].id != v.marketQueue[j].id {
      assert all[i] == v.marketQueue[i] && all[j] == v.marketQueue[j];
    }
    MarketEnds(cfg, start, [], v.marketQueue, c, v.expired, v.newOrders);
    var market := MarketPhase(cfg, start, v.marketQueue, c);
    var open := market.(venue := market.venue.(limitOpen := []));
    SameReport(market, open, v.marketQueue, v.expired, v.newOrders);
    LimitsEnd(cfg, open, v.marketQueue, v.limitOpen, c, v.expired, v.newOrders);
  }

  lemma SameReport(a: Progress, b: Progress, done: seq<Order>, expired: seq<Order>, news: seq<Order>)
    requires Ended(a, done, expired, news) && a.fills == b.fills
    requires a.venue.orders == b.venue.orders && a.venue.expired == b.venue.expired
    requires a.venue.newOrders == b.venue.newOrders
    ensures Ended(b, done, expired, news)
  {
    forall o | o in done ensures EndedOnce(b.venue, b.fills, o) {
      assert EndedOnce(a.venue, a.fills, o);
    }
  }

  lemma ExitsOfCandle(cfg: VenueConfig, v: VenueState, c: Candle)
    ensures var own, r := OwnPhase(cfg, v, c), OnCandle(cfg, v, c);
            && own.venue.nextId == v.nextId && Exited(own, r, c)
            && r.venue.marketQueue == [] && r.venue.limitOpen == []
  {
    var own := OwnPhase(cfg, v, c);
    OwnKeeps(cfg, v, c);
    SweepExits(cfg, Sweep(own, []), own.venue.protections, c);
    var swept, r := ProtectionPhase(cfg, Sweep(own, []), own.venue.protections, c).progress, OnCandle(cfg, v, c);
    forall k | |own.fills| <= k < |r.fills| ensures ExitFiled(own, r, c, k) {
      assert ExitFiled(own, swept, c, k);
    }
  }

  /** Of the older orders, those filled or cancelled before this candle leave the file. */
  lemma OnlyEndedOnesLeave(cfg: VenueConfig, v: VenueState, c: Candle, id: OrderId)
    requires Bygone(v, id)
    ensures var after := OnCandle(cfg, v, c).venue;
            && (id in after.orders
                <==> id in v.orders && (v.orders[id].status == Open || v.orders[id].status == Rejected))
            && (id in after.orders ==> after.orders[id] == v.orders[id])
  {
    var own := OwnPhase(cfg, v, c);
    OwnLeaves(cfg, v, c, id);
    ExitsOfCandle(cfg, v, c);
  }

  /** A candle ends every waiting order once: it fills, and its record carries that fill's price, time
      and fee, or it is cancelled and reported as expired, and nothing else expires. Fills past the
      waiting orders' own are exits; each is reported as a new order with the next number, already
      filled, and on file. */
  lemma EveryOrderEndsOnce(cfg: VenueConfig, v: VenueState, c: Candle)
    requires Waiting(v)
    ensures var own, r := OwnPhase(cfg, v, c), OnCandle(cfg, v, c);
            && own.venue.newOrders == v.newOrders && own.venue.nextId == v.nextId && Exited(own, r, c)
            && (forall o :: o in v.marketQueue + v.limitOpen ==> EndedOnce(r.venue, r.fills, o))
            && (forall f :: f in own.fills ==> Among(v.marketQueue + v.limitOpen, f.orderId))
            && (forall e :: e in r.venue.expired <==>
                  || e in v.expired
                  || exists o :: o in v.marketQueue + v.limitOpen && e == Dropped(o) && !FilledBy(r.fills, o.id))
            && r.venue.marketQueue == [] && r.venue.limitOpen == []
  {
    var own, r, all := OwnPhase(cfg, v, c), OnCandle(cfg, v, c), v.marketQueue + v.limitOpen;
    OwnPhaseEnds(cfg, v, c);
    ExitsOfCandle(cfg, v, c);
    forall o | o in all
      ensures EndedOnce(r.venue, r.fills, o) && (FilledBy(r.fills, o.id) <==> FilledBy(own.fills, o.id))
    {
      StillEnded(own, r, c, o);
    }
  }

  /** An exit is not one of the orders before it. */
  lemma StillEnded(s: Progress, r: Progress, c: Candle, o: Order)
    requires Exited(s, r, c) && EndedOnce(s.venue, s.fills, o) && o.id.Local? && o.id.n < s.venue.nextId
    ensures EndedOnce(r.venue, r.fills, o) && (FilledBy(r.fills, o.id) <==> FilledBy(s.fills, o.id))
  {
    forall f | f in r.fills && f.orderId == o.id ensures f in s.fills {
      var k :| 0 <= k < |r.fills| && r.fills[k] == f;
      assert k >= |s.fills| ==> ExitFiled(s, r, c, k);
      assert k < |s.fills| && s.fills[k] == f;
    }
    forall f | f in s.fills ensures f in r.fills {
      var k :| 0 <= k < |s.fills| && s.fills[k] == f;
      assert r.fills[k] == f;
    }
  }

  lemma {:induction false} PhasesLeave(cfg: VenueConfig, pr: Progress, queue: seq<Order>, c: Candle, id: OrderId)
    requires !Among(queue, id)
    ensures SameEntry(pr.venue, MarketPhase(cfg, pr, queue, c).venue, id)
    ensures SameEntry(pr.venue, LimitPhase(cfg, pr, queue, c).venue, id)
    decreases |queue|
  {
    if queue != [] {
      assert queue[0] in queue && !Among(queue[1..], id);
      PhasesLeave(cfg, MarketStep(cfg, pr, queue[0], c), queue[1..], c, id);
      PhasesLeave(cfg, LimitStep(cfg, pr, queue[0], c), queue[1..], c, id);
    }
  }

  lemma OwnLeaves(cfg: VenueConfig, v: VenueState, c: Candle, id: OrderId)
    requires Bygone(v, id)
    ensures SameEntry(PruneOrders(v), OwnPhase(cfg, v, c).venue, id)
  {
    assert !Among(v.marketQueue, id) && !Among(v.limitOpen, id) by {
      assert forall o :: o in v.marketQueue || o in v.limitOpen ==> o in v.marketQueue + v.limitOpen;
    }
    var start := Progress(PruneOrders(v).(marketQueue := []), []);
    PhasesLeave(cfg, start, v.marketQueue, c, id);
    var market := MarketPhase(cfg, start, v.marketQueue, c);
    PhasesLeave(cfg, market.(venue := market.venue.(limitOpen := [])), v.limitOpen, c, id);
  }

  lemma {:induction false} QueuesKeep(cfg: VenueConfig, pr: Progress, queue: seq<Order>, c: Candle)
    ensures var m, l := MarketPhase(cfg, pr, queue, c).venue, LimitPhase(cfg, pr, queue, c).venue;
            && m.nextId == l.nextId == pr.venue.nextId
            && m.marketQueue == l.marketQueue == pr.venue.marketQueue
            && m.limitOpen == l.limitOpen == pr.venue.limitOpen
    decreases |queue|
  {
    if queue != [] {
      QueuesKeep(cfg, MarketStep(cfg, pr, queue[0], c), queue[1..], c);
      QueuesKeep(cfg, LimitStep(cfg, pr, queue[0], c), queue[1..], c);
    }
  }

  lemma OwnKeeps(cfg: VenueConfig, v: VenueState, c: Candle)
    ensures var own := OwnPhase(cfg, v, c).venue;
            own.nextId == v.nextId && own.marketQueue == [] && own.limitOpen == []
  {
    var start := Progress(PruneOrders(v).(marketQueue := []), []);
    QueuesKeep(cfg, start, v.marketQueue, c);
    var market := MarketPhase(cfg, start, v.marketQueue, c);
    QueuesKeep(cfg, market.(venue := market.venue.(limitOpen := [])), v.limitOpen, c);
  }

  /** A close-out is reported like an exit: a new market order with the next number, already filled,
      against the whole signed size, and on file. */
  lemma CloseOutIsOnFile(cfg: VenueConfig, v: VenueState, pair: Pair, size: real, c: Candle)
    ensures var (after, f) := Liquidate(cfg, v, pair, size, c);
            && f.pair == pair && f.orderId == Local(v.nextId) && f.ts == c.ts
            && (size > 0.0 ==> f.side == Sell && f.size == size)
            && (size < 0.0 ==> f.side == Buy && f.size == -size)
            && Exited(Progress(v, []), Progress(after, [f]), c)
  {
    var (after, f) := Liquidate(cfg, v, pair, size, c);
    assert after.newOrders == v.newOrders + [ExitOf(f, c)];
    assert after.orders == v.orders[Local(v.nextId) := ExitOf(f, c)];
  }
}
