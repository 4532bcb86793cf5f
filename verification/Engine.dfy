/** The single-pair spot engine: one candle is venue, ledger, risk, strategy,
    submission, in that order (kaupo/core/engine.py). */
module Engine {
  import opened Domain
  import opened Accounting
  import opened PaperVenue
  import Risk = RiskManager
  import L = Ledger
  import Sums

  const DAY := 86400

  datatype EngineConfig = EngineConfig(pair: Pair, venue: VenueConfig, risk: Risk.RiskConfig)

  datatype EngineState = EngineState(venue: VenueState, books: Books, risk: Risk.Manager, killed: bool)

  datatype Control = Proceed | Pause | Kill

  /** Everything a candle brings: the market, the operator and the strategy's answer.
      A strategy is any function of the state, so its intents are any list at all. */
  datatype Input = Input(candle: Candle, control: Control, intents: seq<OrderIntent>)

  // ----- the fill loop -----

  datatype Settlement = Settlement(venue: VenueState, books: Books, risk: Risk.Manager, accepted: seq<bool>)

  function SettleOne(cfg: Risk.RiskConfig, s: Settlement, f: Fill): Settlement {
    match ApplySpot(s.books, f)
    case Failure(_) => s.(venue := VoidFill(s.venue, f), accepted := s.accepted + [false])
    case Success(a) =>
      Settlement(s.venue, a.books, if f.side.Sell? then Risk.NotifyTradeResult(cfg, s.risk, a.realized) else s.risk,
                 s.accepted + [true])
  }

  function Settle(cfg: Risk.RiskConfig, s: Settlement, fills: seq<Fill>): Settlement
    decreases |fills|
  {
    if fills == [] then s else Settle(cfg, SettleOne(cfg, s, fills[0]), fills[1..])
  }

  // ----- one candle -----

  function RiskStateAt(cfg: EngineConfig, b: Books, c: Candle): Risk.RiskState {
    Risk.RiskState((c.ts + c.seconds) / DAY, b.cash, map[cfg.pair := PositionOf(b, cfg.pair)], map[cfg.pair := c.close])
  }

  function OrderFrom(a: Risk.Assessment, ts: int, id: nat): Order {
    Order(Local(id), a.intent.pair, a.intent.side, if a.intent.limitPrice.Some? then Limit else Market, a.size,
          a.intent.limitPrice, a.intent.stopLoss, a.intent.takeProfit, ts, Open, None, None, 0.0)
  }

  function SubmitAll(v: VenueState, batch: seq<Risk.Assessment>, ts: int): VenueState
    decreases |batch|
  {
    if batch == [] then v
    else if batch[0].decision.Refused? then SubmitAll(v, batch[1..], ts)
    else SubmitAll(Submit(v, OrderFrom(batch[0], ts, v.nextId)).(nextId := v.nextId + 1), batch[1..], ts)
  }

  /** Venue and ledger, up to the end of the fill loop. */
  function AfterFills(cfg: EngineConfig, s: EngineState, c: Candle): Settlement {
    var pr := OnCandle(cfg.venue, s.venue, c);
    Settle(cfg.risk, Settlement(pr.venue.(newOrders := [], expired := []), s.books, s.risk, []), pr.fills)
  }

  /** Risk checks, operator control, then the strategy's approved intents. */
  ghost function Decide(cfg: EngineConfig, t: Settlement, killed: bool, i: Input): EngineState
    requires cfg.risk.costRate != -1.0
  {
    var st := RiskStateAt(cfg, t.books, i.candle);
    var risk := Risk.OnCandle(cfg.risk, t.risk, st.day, Risk.FloorEquity(st));
    if risk.halted || i.control.Pause? then EngineState(t.venue, t.books, risk, killed)
    else if i.control.Kill? then EngineState(t.venue, t.books, risk, true)
    else
      var batch := Risk.AssessSpot(cfg.risk, risk.cooldown, i.intents, st);
      EngineState(SubmitAll(t.venue, batch, i.candle.ts), t.books, risk, killed)
  }

  ghost function Step(cfg: EngineConfig, s: EngineState, i: Input): EngineState
    requires cfg.risk.costRate != -1.0
  {
    Decide(cfg, AfterFills(cfg, s, i.candle), s.killed, i)
  }

  // ----- what every reachable state keeps -----

  function PendingSells(queue: seq<Order>, pair: Pair): real {
    if queue == [] then 0.0
    else (if queue[0].side.Sell? && queue[0].pair == pair then queue[0].size else 0.0) + PendingSells(queue[1..], pair)
  }

  function SellsIn(fills: seq<Fill>, pair: Pair): real {
    if fills == [] then 0.0
    else (if fills[0].side.Sell? && fills[0].pair == pair then fills[0].size else 0.0) + SellsIn(fills[1..], pair)
  }

  lemma {:induction false} PendingSellsAppend(a: seq<Order>, b: seq<Order>, pair: Pair)
    ensures PendingSells(a + b, pair) == PendingSells(a, pair) + PendingSells(b, pair)
  {
    if a == [] {
      assert a + b == b;
    } else {
      assert (a + b)[1..] == a[1..] + b;
      PendingSellsAppend(a[1..], b, pair);
    }
  }

  lemma {:induction false} SellsInAppend(a: seq<Fill>, b: seq<Fill>, pair: Pair)
    ensures SellsIn(a + b, pair) == SellsIn(a, pair) + SellsIn(b, pair)
  {
    if a == [] {
      assert a + b == b;
    } else {
      assert (a + b)[1..] == a[1..] + b;
      SellsInAppend(a[1..], b, pair);
    }
  }

  ghost predicate IsPair(p: Pair) { true }

  /** The bound that excludes nothing. */
  ghost const ANY_PAIR := iset p: Pair | IsPair(p)

  /** Orders no smaller than zero, on the pairs in play. */
  ghost predicate Sized(pairs: iset<Pair>, queue: seq<Order>) {
    forall o :: o in queue ==> o.size >= 0.0 && o.pair in pairs
  }

  /** Protections guard entries, and entries are buys. */
  ghost predicate Guards(pairs: iset<Pair>, p: Protection) {
    p.entry.side.Buy? && p.entry.size >= 0.0 && p.entry.pair in pairs
  }

  ghost predicate GuardBuys(pairs: iset<Pair>, ps: seq<Protection>) {
    forall p :: p in ps ==> Guards(pairs, p)
  }

  ghost predicate VenueSound(pairs: iset<Pair>, v: VenueState) {
    && Sized(pairs, v.marketQueue) && Sized(pairs, v.limitOpen)
    && GuardBuys(pairs, v.protections) && GuardBuys(pairs, v.newlyArmed)
    && (forall id :: id in v.protByExit ==> Guards(pairs, v.protByExit[id]))
  }

  /** No money and no position is ever negative. */
  ghost predicate Solvent(b: Books) {
    b.cash >= 0.0 && LongOnly(b)
  }

  /** Venue and ledger agree on every pair, up to what the ledger opened with. */
  ghost predicate Agree(v: VenueState, b: Books, opening: Books) {
    forall p :: PositionOf(b, p).size - PositionAt(v, p) == PositionOf(opening, p).size
  }

  /** Pending sells are covered by the ledger. */
  ghost predicate Covered(v: VenueState, b: Books) {
    forall p :: PendingSells(v.marketQueue, p) + PendingSells(v.limitOpen, p) <= PositionOf(b, p).size
  }

  ghost predicate Invariant(pairs: iset<Pair>, s: EngineState, opening: Books) {
    && VenueSound(pairs, s.venue) && Solvent(s.books)
    && Agree(s.venue, s.books, opening) && Covered(s.venue, s.books)
    && PaidIn(s.books) == PaidIn(opening) && KeysWithin(pairs, s.books, opening)
  }

  /** Only pairs in play, or held from the start, ever enter the books. */
  ghost predicate KeysWithin(pairs: iset<Pair>, b: Books, opening: Books) {
    forall p :: p in b.positions ==> p in opening.positions || p in pairs
  }

  /** Fee rates below one and slippage below one: a sale never costs money. */
  predicate FairFees(cfg: VenueConfig) {
    cfg.taker <= 1.0 && cfg.maker <= 1.0 && cfg.slip <= 1.0
  }

  predicate ValidInput(i: Input) {
    ValidCandle(i.candle) && Risk.ValidIntents(i.intents)
  }

  ghost predicate IntentsOn(pairs: iset<Pair>, intents: seq<OrderIntent>) {
    forall i :: i in intents ==> i.pair in pairs
  }

  /** A fill the venue can hand out: sized, and a sale that brings money in. */
  ghost predicate FairFill(pairs: iset<Pair>, f: Fill) {
    && WellSized(f) && f.pair in pairs
    && (f.side.Sell? ==> CashDelta(f) >= 0.0)
  }

  lemma FairMakeFill(pairs: iset<Pair>, o: Order, ts: int, price: real, rate: real, tier: Tier)
    requires o.size >= 0.0 && rate <= 1.0 && o.pair in pairs
    requires o.side.Sell? ==> price >= 0.0
    ensures FairFill(pairs, MakeFill(o, ts, price, rate, tier))
  {
    var f := MakeFill(o, ts, price, rate, tier);
    if o.side.Sell? {
      Risk.TimesNonNegative(price, o.size);
      Risk.TimesMonotone(rate, 1.0, price * o.size);
      assert f.fee == rate * (price * o.size);
    }
  }

  lemma SlippedNonNegative(cfg: VenueConfig, price: real, side: Side)
    requires price >= 0.0 && cfg.slip <= 1.0
    ensures side.Sell? ==> Slipped(cfg, price, side) >= 0.0
  {
    if side.Sell? {
      Risk.TimesNonNegative(price, 1.0 - cfg.slip);
    }
  }

  // ----- the venue's candle, seen from the ledger -----

  /** What the own phases add: fair fills whose sells come out of the queues. */
  ghost predicate OwnSound(pairs: iset<Pair>, before: Progress, after: Progress, queue: seq<Order>) {
    && |before.fills| <= |after.fills| && after.fills[..|before.fills|] == before.fills
    && (forall f :: f in after.fills ==> FairFill(pairs, f))
    && (forall p :: SellsIn(after.fills, p) <= SellsIn(before.fills, p) + PendingSells(queue, p))
    && VenueSound(pairs, after.venue.(marketQueue := [], limitOpen := []))
  }

  lemma {:induction false} GuardBuysOther(pairs: iset<Pair>, ps: seq<Protection>, pair: Pair)
    requires GuardBuys(pairs, ps)
    ensures GuardBuys(pairs, OtherPairs(ps, pair))
  {
    if ps != [] {
      assert ps[0] in ps;
      GuardBuysOther(pairs, ps[1..], pair);
    }
  }

  lemma {:induction false} GuardBuysOtherOrders(pairs: iset<Pair>, ps: seq<Protection>, id: OrderId)
    requires GuardBuys(pairs, ps)
    ensures GuardBuys(pairs, OtherOrders(ps, id))
  {
    if ps != [] {
      assert ps[0] in ps;
      GuardBuysOtherOrders(pairs, ps[1..], id);
    }
  }

  lemma TrackKeepsSound(pairs: iset<Pair>, v: VenueState, f: Fill)
    requires VenueSound(pairs, v)
    ensures VenueSound(pairs, TrackPosition(v, f))
  {
    GuardBuysOther(pairs, v.protections, f.pair);
    GuardBuysOther(pairs, v.newlyArmed, f.pair);
  }

  lemma FillKeepsSound(pairs: iset<Pair>, v: VenueState, o: Order, f: Fill)
    requires VenueSound(pairs, v) && o.size >= 0.0 && o.pair in pairs
    ensures VenueSound(pairs, FillOrder(v, o, f))
  {
    var filled := FilledOrder(o, f);
    TrackKeepsSound(pairs, v.(orders := v.orders[o.id := filled]), f);
  }

  /** One order filled for its own size, on its own side. */
  lemma {:induction false} OwnStep(pairs: iset<Pair>, pr: Progress, o: Order, f: Fill, queue: seq<Order>)
    requires (forall g :: g in pr.fills ==> FairFill(pairs, g)) && VenueSound(pairs, pr.venue)
    requires FairFill(pairs, f) && o.size >= 0.0 && o.pair in pairs && f.size == o.size && f.side == o.side
        && f.pair == o.pair
    requires queue != [] && queue[0] == o
    ensures var next := Progress(FillOrder(pr.venue, o, f), pr.fills + [f]);
            && VenueSound(pairs, next.venue)
            && (forall g :: g in next.fills ==> FairFill(pairs, g))
            && (forall p :: SellsIn(next.fills, p) + PendingSells(queue[1..], p)
                         == SellsIn(pr.fills, p) + PendingSells(queue, p))
  {
    FillKeepsSound(pairs, pr.venue, o, f);
    forall p ensures SellsIn(pr.fills + [f], p) + PendingSells(queue[1..], p)
                  == SellsIn(pr.fills, p) + PendingSells(queue, p)
    {
      SellsInAppend(pr.fills, [f], p);
    }
  }

  lemma {:induction false} MarketSound(pairs: iset<Pair>, cfg: VenueConfig, pr: Progress, queue: seq<Order>, c: Candle)
    requires FairFees(cfg) && ValidCandle(c) && Sized(pairs, queue)
    requires (forall f :: f in pr.fills ==> FairFill(pairs, f)) && VenueSound(pairs, pr.venue)
    ensures OwnSound(pairs, pr, MarketPhase(cfg, pr, queue, c), queue)
    ensures VenueSound(pairs, MarketPhase(cfg, pr, queue, c).venue)
    ensures MarketPhase(cfg, pr, queue, c).venue.limitOpen == pr.venue.limitOpen
    ensures MarketPhase(cfg, pr, queue, c).venue.marketQueue == pr.venue.marketQueue
    decreases |queue|
  {
    if queue != [] {
      var o := queue[0];
      var f := FillMarket(cfg, o, c);
      assert o in queue;
      SlippedNonNegative(cfg, c.open, o.side);
      FairMakeFill(pairs, o, c.ts, Slipped(cfg, c.open, o.side), cfg.taker, Taker);
      OwnStep(pairs, pr, o, f, queue);
      var next := MarketStep(cfg, pr, o, c);
      MarketSound(pairs, cfg, next, queue[1..], c);
      assert next.fills[..|pr.fills|] == pr.fills;
    }
  }

  lemma {:induction false} LimitSound(pairs: iset<Pair>, cfg: VenueConfig, pr: Progress, queue: seq<Order>, c: Candle)
    requires FairFees(cfg) && ValidCandle(c) && Sized(pairs, queue)
    requires (forall f :: f in pr.fills ==> FairFill(pairs, f)) && VenueSound(pairs, pr.venue)
    ensures OwnSound(pairs, pr, LimitPhase(cfg, pr, queue, c), queue)
    ensures VenueSound(pairs, LimitPhase(cfg, pr, queue, c).venue)
    ensures LimitPhase(cfg, pr, queue, c).venue.limitOpen == pr.venue.limitOpen
    ensures LimitPhase(cfg, pr, queue, c).venue.marketQueue == pr.venue.marketQueue
    decreases |queue|
  {
    if queue != [] {
      var o := queue[0];
      assert o in queue;
      var next := LimitStep(cfg, pr, o, c);
      match LimitOutcome(cfg, o, c) {
        case Some(f) =>
          FairLimit(pairs, cfg, o, c);
          OwnStep(pairs, pr, o, f, queue);
        case None =>
      }
      LimitSound(pairs, cfg, next, queue[1..], c);
      assert next.fills[..|pr.fills|] == pr.fills;
      forall p ensures SellsIn(next.fills, p) + PendingSells(queue[1..], p)
                    <= SellsIn(pr.fills, p) + PendingSells(queue, p)
      {
      }
    }
  }

  lemma FairLimit(pairs: iset<Pair>, cfg: VenueConfig, o: Order, c: Candle)
    requires FairFees(cfg) && ValidCandle(c) && o.size >= 0.0 && o.pair in pairs
    requires LimitOutcome(cfg, o, c).Some?
    ensures FairFill(pairs, LimitOutcome(cfg, o, c).value)
  {
    var f := LimitOutcome(cfg, o, c).value;
    var takes := cfg.mode.AsTaker? && IsMarketableAtPosting(o.side, o.limitPrice.value, c.open);
    FairMakeFill(pairs, o, c.ts, f.price, if takes then cfg.taker else cfg.maker, if takes then Taker else Maker);
  }

  /** Protection exits are fair sells appended after the candle's own fills. */
  lemma {:induction false} ProtectionSound(pairs: iset<Pair>, cfg: VenueConfig, s: Sweep, ps: seq<Protection>,
                                           c: Candle)
    requires FairFees(cfg) && ValidCandle(c) && GuardBuys(pairs, ps)
    requires (forall f :: f in s.progress.fills ==> FairFill(pairs, f)) && VenueSound(pairs, s.progress.venue)
        && GuardBuys(pairs, s.survivors)
    ensures var after := ProtectionPhase(cfg, s, ps, c);
            var n := |s.progress.fills|;
            && n <= |after.progress.fills| && after.progress.fills[..n] == s.progress.fills
            && (forall f :: f in after.progress.fills ==> FairFill(pairs, f))
            && VenueSound(pairs, after.progress.venue) && GuardBuys(pairs, after.survivors)
            && after.progress.venue.limitOpen == s.progress.venue.limitOpen
            && after.progress.venue.marketQueue == s.progress.venue.marketQueue
    decreases |ps|
  {
    if ps != [] {
      var v, p := s.progress.venue, ps[0];
      assert p in ps;
      var next := ProtectionStep(cfg, s, p, c);
      if PositionAt(v, p.entry.pair) > 0.0 && CheckProtection(cfg, v, p, c).Some? {
        var f := CheckProtection(cfg, v, p, c).value;
        FairExit(pairs, cfg, v, p, c);
        FireKeepsSound(pairs, v, p, f, c);
      }
      ProtectionSound(pairs, cfg, next, ps[1..], c);
      assert next.progress.fills[..|s.progress.fills|] == s.progress.fills;
    }
  }

  lemma FairExit(pairs: iset<Pair>, cfg: VenueConfig, v: VenueState, p: Protection, c: Candle)
    requires FairFees(cfg) && ValidCandle(c) && Guards(pairs, p)
    requires PositionAt(v, p.entry.pair) > 0.0 && CheckProtection(cfg, v, p, c).Some?
    ensures FairFill(pairs, CheckProtection(cfg, v, p, c).value)
  {
    var exit := ExitOrder(v, p, c);
    if p.stopLoss.Some? && c.low <= p.stopLoss.value {
      var price := Slipped(cfg, Min(p.stopLoss.value, c.open), exit.side);
      SlippedNonNegative(cfg, Min(p.stopLoss.value, c.open), exit.side);
      FairMakeFill(pairs, exit, c.ts, price, cfg.taker, Taker);
    } else {
      FairMakeFill(pairs, exit, c.ts, Max(p.takeProfit.value, c.open), cfg.maker, Maker);
    }
  }

  lemma FireKeepsSound(pairs: iset<Pair>, v: VenueState, p: Protection, f: Fill, c: Candle)
    requires VenueSound(pairs, v) && Guards(pairs, p)
    ensures VenueSound(pairs, FireProtection(v, p, f, c))
    ensures FireProtection(v, p, f, c).limitOpen == v.limitOpen
    ensures FireProtection(v, p, f, c).marketQueue == v.marketQueue
  {
    var exit := FilledOrder(ExitOrder(v, p, c), f);
    var armed := v.(orders := v.orders[exit.id := exit], newOrders := v.newOrders + [exit],
                    protByExit := v.protByExit[exit.id := p], nextId := v.nextId + 1);
    TrackKeepsSound(pairs, armed, f);
  }

  /** One candle of the venue: empty queues, fair fills, and own sells out of the queues. */
  lemma CandleSound(pairs: iset<Pair>, cfg: VenueConfig, v: VenueState, c: Candle)
    requires FairFees(cfg) && ValidCandle(c) && VenueSound(pairs, v)
    ensures var own := OwnPhase(cfg, v, c).fills;
            var pr := OnCandle(cfg, v, c);
            && |own| <= |pr.fills| && pr.fills[..|own|] == own
            && (forall f :: f in pr.fills ==> FairFill(pairs, f))
            && (forall p :: SellsIn(own, p) <= PendingSells(v.marketQueue, p) + PendingSells(v.limitOpen, p))
            && VenueSound(pairs, pr.venue) && pr.venue.marketQueue == [] && pr.venue.limitOpen == []
  {
    var start := Progress(PruneOrders(v).(marketQueue := []), []);
    var afterMarket := MarketPhase(cfg, start, v.marketQueue, c);
    MarketSound(pairs, cfg, start, v.marketQueue, c);
    LimitSound(pairs, cfg, afterMarket.(venue := afterMarket.venue.(limitOpen := [])), v.limitOpen, c);
    var own := OwnPhase(cfg, v, c);
    ProtectionSound(pairs, cfg, Sweep(own, []), own.venue.protections, c);
    forall p ensures SellsIn(own.fills, p) <= PendingSells(v.marketQueue, p) + PendingSells(v.limitOpen, p) {
      assert SellsIn(start.fills, p) == 0.0;
    }
  }

  // ----- the fill loop, seen from both sides -----

  lemma VoidKeepsSound(pairs: iset<Pair>, v: VenueState, f: Fill)
    requires VenueSound(pairs, v)
    ensures VenueSound(pairs, VoidFill(v, f))
    ensures VoidFill(v, f).marketQueue == v.marketQueue && VoidFill(v, f).limitOpen == v.limitOpen
    ensures forall p :: PositionAt(VoidFill(v, f), p) == PositionAt(v, p) - Delta(f, p)
  {
    GuardBuysOtherOrders(pairs, v.protections, f.orderId);
    GuardBuysOtherOrders(pairs, v.newlyArmed, f.orderId);
    var rejected := RejectOrder(Untrack(v, f), f.orderId);
    assert VenueSound(pairs, rejected);
    assert rejected.positions == Untrack(v, f).positions;
  }

  /** What the fill loop keeps at every fill: solvency, the accounting identity, the
      venue's shape, and ledger minus venue growing by exactly the fills consumed. */
  ghost predicate LoopSound(pairs: iset<Pair>, s: Settlement, t: Settlement, consumed: seq<Fill>) {
    && Solvent(t.books) && PaidIn(t.books) == PaidIn(s.books) && KeysWithin(pairs, t.books, s.books)
    && VenueSound(pairs, t.venue) && t.venue.marketQueue == s.venue.marketQueue
    && t.venue.limitOpen == s.venue.limitOpen
    && (forall p :: PositionOf(t.books, p).size - PositionAt(t.venue, p)
                 == PositionOf(s.books, p).size - PositionAt(s.venue, p) + NetDelta(consumed, p))
    && |t.accepted| == |s.accepted| + |consumed| && t.accepted[..|s.accepted|] == s.accepted
  }

  lemma SettleOneSound(pairs: iset<Pair>, cfg: Risk.RiskConfig, s: Settlement, f: Fill)
    requires Solvent(s.books) && VenueSound(pairs, s.venue) && FairFill(pairs, f)
    ensures LoopSound(pairs, s, SettleOne(cfg, s, f), [f])
  {
    var t := SettleOne(cfg, s, f);
    if ApplySpot(s.books, f).Success? {
      SpotKeepsIdentity(s.books, f);
      SizeAfter(false, s.books, f, false);
    } else {
      VoidKeepsSound(pairs, s.venue, f);
    }
    forall p ensures PositionOf(t.books, p).size - PositionAt(t.venue, p)
                  == PositionOf(s.books, p).size - PositionAt(s.venue, p) + NetDelta([f], p)
    {
      assert NetDelta([f], p) == Delta(f, p) + NetDelta([f][1..], p);
    }
  }

  lemma {:induction false} SettleSound(pairs: iset<Pair>, cfg: Risk.RiskConfig, s: Settlement, fills: seq<Fill>)
    requires Solvent(s.books) && VenueSound(pairs, s.venue)
    requires forall f :: f in fills ==> FairFill(pairs, f)
    ensures LoopSound(pairs, s, Settle(cfg, s, fills), fills)
    decreases |fills|
  {
    if fills != [] {
      var f := fills[0];
      assert f in fills;
      SettleOneSound(pairs, cfg, s, f);
      var next := SettleOne(cfg, s, f);
      SettleSound(pairs, cfg, next, fills[1..]);
      forall p ensures NetDelta(fills, p) == NetDelta([f], p) + NetDelta(fills[1..], p) {
        NetDeltaAppend([f], fills[1..], p);
        assert [f] + fills[1..] == fills;
      }
      var t := Settle(cfg, s, fills);
      assert t.accepted[..|s.accepted|] == t.accepted[..|next.accepted|][..|s.accepted|];
    }
  }

  lemma {:induction false} SellsCovered(pairs: iset<Pair>, s: Settlement, fills: seq<Fill>)
    requires forall p :: SellsIn(fills, p) <= PositionOf(s.books, p).size
    requires (forall f :: f in fills ==> FairFill(pairs, f)) && fills != [] && Solvent(s.books)
    ensures fills[0].side.Sell? ==> ApplySpot(s.books, fills[0]).Success?
    ensures forall cfg, p :: SellsIn(fills[1..], p) <= PositionOf(SettleOne(cfg, s, fills[0]).books, p).size
  {
    var f := fills[0];
    assert f in fills;
    SellsNonNegative(pairs, fills[1..], f.pair);
    assert SellsIn(fills, f.pair) <= PositionOf(s.books, f.pair).size;
    forall cfg, p ensures SellsIn(fills[1..], p) <= PositionOf(SettleOne(cfg, s, f).books, p).size {
      if ApplySpot(s.books, f).Success? {
        SizeAfter(false, s.books, f, false);
        assert SellsIn(fills, p) <= PositionOf(s.books, p).size;
      }
    }
  }

  lemma {:induction false} SellsNonNegative(pairs: iset<Pair>, fills: seq<Fill>, pair: Pair)
    requires forall f :: f in fills ==> FairFill(pairs, f)
    ensures SellsIn(fills, pair) >= 0.0
    decreases |fills|
  {
    if fills != [] {
      assert fills[0] in fills;
      SellsNonNegative(pairs, fills[1..], pair);
    }
  }

  /** The fill loop answers every fill, and never revises an answer. */
  lemma {:induction false} AnswersGrow(cfg: Risk.RiskConfig, s: Settlement, fills: seq<Fill>)
    ensures |Settle(cfg, s, fills).accepted| == |s.accepted| + |fills|
    ensures Settle(cfg, s, fills).accepted[..|s.accepted|] == s.accepted
    decreases |fills|
  {
    if fills != [] {
      AnswersGrow(cfg, SettleOne(cfg, s, fills[0]), fills[1..]);
    }
  }

  lemma {:induction false} OneAnswer(cfg: Risk.RiskConfig, s: Settlement, fills: seq<Fill>)
    requires fills != [] && ApplySpot(s.books, fills[0]).Success?
    ensures |Settle(cfg, s, fills).accepted| > |s.accepted| && Settle(cfg, s, fills).accepted[|s.accepted|]
  {
    var next := SettleOne(cfg, s, fills[0]);
    AnswersGrow(cfg, next, fills[1..]);
    var t := Settle(cfg, s, fills).accepted;
    assert t[..|next.accepted|][|s.accepted|] == t[|s.accepted|];
  }

  /** Sells that the ledger's position covers are all accepted, whatever happens to
      the buys between them and to the protection exits behind them. */
  lemma {:induction false} OwnSellsAccepted(pairs: iset<Pair>, cfg: Risk.RiskConfig, s: Settlement, fills: seq<Fill>,
                                            own: nat, k: nat)
    requires Solvent(s.books) && VenueSound(pairs, s.venue)
    requires forall f :: f in fills ==> FairFill(pairs, f)
    requires k < own <= |fills| && fills[k].side.Sell?
    requires forall p :: SellsIn(fills[..own], p) <= PositionOf(s.books, p).size
    ensures |Settle(cfg, s, fills).accepted| == |s.accepted| + |fills|
    ensures Settle(cfg, s, fills).accepted[|s.accepted| + k]
    decreases |fills|
  {
    AnswersGrow(cfg, s, fills);
    SellsCovered(pairs, s, fills[..own]);
    assert fills[..own][0] == fills[0] && fills[..own][1..] == fills[1..][..own - 1];
    if k == 0 {
      OneAnswer(cfg, s, fills);
    } else {
      assert fills[0] in fills;
      SettleOneSound(pairs, cfg, s, fills[0]);
      OwnSellsAccepted(pairs, cfg, SettleOne(cfg, s, fills[0]), fills[1..], own - 1, k - 1);
    }
  }

  // ----- submissions -----

  lemma SubmissionSound(pairs: iset<Pair>, v: VenueState, a: Risk.Assessment, ts: int)
    requires VenueSound(pairs, v) && !a.decision.Refused? && a.size >= 0.0 && a.intent.pair in pairs
    ensures var next := Submit(v, OrderFrom(a, ts, v.nextId)).(nextId := v.nextId + 1);
            && VenueSound(pairs, next) && next.positions == v.positions
            && (forall p :: PendingSells(next.marketQueue, p) + PendingSells(next.limitOpen, p)
                         == PendingSells(v.marketQueue, p) + PendingSells(v.limitOpen, p)
                            + (if Risk.Sells(a) && a.intent.pair == p then a.size else 0.0))
  {
    var o := OrderFrom(a, ts, v.nextId);
    forall p ensures PendingSells([o], p) == if o.side.Sell? && o.pair == p then o.size else 0.0 {
      assert [o][1..] == [];
    }
    var next := Submit(v, o);
    forall p ensures PendingSells(next.marketQueue, p) + PendingSells(next.limitOpen, p)
                  == PendingSells(v.marketQueue, p) + PendingSells(v.limitOpen, p) + PendingSells([o], p)
    {
      PendingSellsAppend(v.marketQueue, [o], p);
      PendingSellsAppend(v.limitOpen, [o], p);
    }
  }

  lemma {:induction false} SubmissionsSound(pairs: iset<Pair>, v: VenueState, batch: seq<Risk.Assessment>, ts: int)
    requires VenueSound(pairs, v)
    requires forall a :: a in batch && !a.decision.Refused? ==> a.size >= 0.0 && a.intent.pair in pairs
    ensures var after := SubmitAll(v, batch, ts);
            && VenueSound(pairs, after) && after.positions == v.positions
            && (forall p :: PendingSells(after.marketQueue, p) + PendingSells(after.limitOpen, p)
                         == PendingSells(v.marketQueue, p) + PendingSells(v.limitOpen, p) + Risk.SellSize(batch, p))
    decreases |batch|
  {
    if batch != [] {
      var a := batch[0];
      assert a in batch;
      if a.decision.Refused? {
        SubmissionsSound(pairs, v, batch[1..], ts);
      } else {
        SubmissionSound(pairs, v, a, ts);
        SubmissionsSound(pairs, Submit(v, OrderFrom(a, ts, v.nextId)).(nextId := v.nextId + 1), batch[1..], ts);
      }
    }
  }

  lemma {:induction false} ApprovedSizes(pairs: iset<Pair>, cfg: Risk.RiskConfig, cooldown: int,
                                         intents: seq<OrderIntent>, st: Risk.RiskState, b: Risk.Batch)
    requires cfg.costRate != -1.0 && Risk.ValidIntents(intents) && IntentsOn(pairs, intents)
    ensures forall a :: a in Risk.AssessFrom(cfg, cooldown, intents, st, b) && !a.decision.Refused?
              ==> a.size >= 0.0 && a.intent.pair in pairs
    decreases |intents|
  {
    if intents != [] {
      assert intents[0] in intents;
      var a := Risk.AssessOne(cfg, cooldown, intents[0], st, b);
      if Risk.Buys(a) {
        Risk.BuyStep(cfg, cooldown, intents[0], st, b);
      }
      ApprovedSizes(pairs, cfg, cooldown, intents[1..], st, Risk.Fold(b, a, st));
    }
  }

  // ----- the main results -----

  /** After the fill loop: venue and ledger differ by the opening position exactly,
      nothing is negative, and every sell the strategy asked for was accepted. */
  lemma FillLoop(pairs: iset<Pair>, cfg: EngineConfig, s: EngineState, c: Candle, opening: Books)
    requires FairFees(cfg.venue) && ValidCandle(c) && Invariant(pairs, s, opening)
    ensures var t := AfterFills(cfg, s, c);
            var own := OwnPhase(cfg.venue, s.venue, c).fills;
            var fills := OnCandle(cfg.venue, s.venue, c).fills;
            && Solvent(t.books) && VenueSound(pairs, t.venue) && Agree(t.venue, t.books, opening)
            && PaidIn(t.books) == PaidIn(opening) && KeysWithin(pairs, t.books, opening)
            && t.venue.marketQueue == [] && t.venue.limitOpen == []
            && |own| <= |fills| == |t.accepted|
            && (forall k :: 0 <= k < |own| && fills[k].side.Sell? ==> t.accepted[k])
  {
    CandleSound(pairs, cfg.venue, s.venue, c);
    var own := OwnPhase(cfg.venue, s.venue, c).fills;
    var pr := OnCandle(cfg.venue, s.venue, c);
    var start := Settlement(pr.venue.(newOrders := [], expired := []), s.books, s.risk, []);
    SettleSound(pairs, cfg.risk, start, pr.fills);
    AgreeAfterLoop(pairs, cfg, s, c, opening);
    forall p ensures SellsIn(pr.fills[..|own|], p) <= PositionOf(s.books, p).size {
      assert PendingSells(s.venue.marketQueue, p) + PendingSells(s.venue.limitOpen, p) <= PositionOf(s.books, p).size;
    }
    forall k | 0 <= k < |own| && pr.fills[k].side.Sell? ensures AfterFills(cfg, s, c).accepted[k] {
      OwnSellsAccepted(pairs, cfg.risk, start, pr.fills, |own|, k);
    }
  }

  /** The venue tracked its fills, the ledger took or refused each: the difference stays. */
  lemma AgreeAfterLoop(pairs: iset<Pair>, cfg: EngineConfig, s: EngineState, c: Candle, opening: Books)
    requires FairFees(cfg.venue) && ValidCandle(c) && Invariant(pairs, s, opening)
    ensures Agree(AfterFills(cfg, s, c).venue, AfterFills(cfg, s, c).books, opening)
  {
    CandleSound(pairs, cfg.venue, s.venue, c);
    OnCandleTracksItsFills(cfg.venue, s.venue, c);
    var pr := OnCandle(cfg.venue, s.venue, c);
    var start := Settlement(pr.venue.(newOrders := [], expired := []), s.books, s.risk, []);
    SettleSound(pairs, cfg.risk, start, pr.fills);
    var t := AfterFills(cfg, s, c);
    forall p ensures PositionOf(t.books, p).size - PositionAt(t.venue, p) == PositionOf(opening, p).size {
      assert PositionAt(pr.venue, p) == PositionAt(s.venue, p) + NetDelta(pr.fills, p);
      assert PositionAt(start.venue, p) == PositionAt(pr.venue, p);
      assert PositionOf(s.books, p).size - PositionAt(s.venue, p) == PositionOf(opening, p).size;
    }
  }

  /** What the strategy then submits stays inside what the ledger holds. */
  lemma DecisionCovered(pairs: iset<Pair>, cfg: EngineConfig, t: Settlement, cooldown: int, i: Input)
    requires cfg.risk.costRate != -1.0 && Risk.ValidIntents(i.intents) && IntentsOn(pairs, i.intents)
    requires VenueSound(pairs, t.venue) && t.venue.marketQueue == [] && t.venue.limitOpen == [] && LongOnly(t.books)
    ensures var st := RiskStateAt(cfg, t.books, i.candle);
            var v := SubmitAll(t.venue, Risk.AssessSpot(cfg.risk, cooldown, i.intents, st), i.candle.ts);
            VenueSound(pairs, v) && v.positions == t.venue.positions && Covered(v, t.books)
  {
    var st := RiskStateAt(cfg, t.books, i.candle);
    var b := Risk.Batch(st.cash, map[], map[]);
    var batch := Risk.AssessSpot(cfg.risk, cooldown, i.intents, st);
    ApprovedSizes(pairs, cfg.risk, cooldown, i.intents, st, b);
    SubmissionsSound(pairs, t.venue, batch, i.candle.ts);
    forall p ensures Risk.SellSize(batch, p) <= PositionOf(t.books, p).size {
      Risk.SellsWithinPosition(cfg.risk, cooldown, i.intents, st, b, p);
    }
  }

  lemma DecideKeepsInvariant(pairs: iset<Pair>, cfg: EngineConfig, t: Settlement, killed: bool, i: Input,
                             opening: Books)
    requires cfg.risk.costRate != -1.0 && Risk.ValidIntents(i.intents) && IntentsOn(pairs, i.intents)
    requires VenueSound(pairs, t.venue) && t.venue.marketQueue == [] && t.venue.limitOpen == []
    requires Solvent(t.books) && Agree(t.venue, t.books, opening)
    requires PaidIn(t.books) == PaidIn(opening) && KeysWithin(pairs, t.books, opening)
    ensures Invariant(pairs, Decide(cfg, t, killed, i), opening)
  {
    NothingPending(t.venue, t.books);
    var st := RiskStateAt(cfg, t.books, i.candle);
    DecisionCovered(pairs, cfg, t, Risk.OnCandle(cfg.risk, t.risk, st.day, Risk.FloorEquity(st)).cooldown, i);
  }

  /** A candle keeps the invariant, whatever the strategy, the operator and the market do. */
  lemma StepKeepsInvariant(pairs: iset<Pair>, cfg: EngineConfig, s: EngineState, i: Input, opening: Books)
    requires FairFees(cfg.venue) && cfg.risk.costRate != -1.0 && ValidInput(i) && IntentsOn(pairs, i.intents)
        && Invariant(pairs, s, opening)
    ensures Invariant(pairs, Step(cfg, s, i), opening)
  {
    FillLoop(pairs, cfg, s, i.candle, opening);
    DecideKeepsInvariant(pairs, cfg, AfterFills(cfg, s, i.candle), s.killed, i, opening);
  }

  lemma NothingPending(v: VenueState, b: Books)
    requires v.marketQueue == [] && v.limitOpen == [] && LongOnly(b)
    ensures Covered(v, b)
  {}

  /** A run stops taking candles once it is halted or killed. */
  ghost function Run(cfg: EngineConfig, s: EngineState, inputs: seq<Input>): EngineState
    requires cfg.risk.costRate != -1.0
    decreases |inputs|
  {
    if inputs == [] || s.killed || s.risk.halted then s else Run(cfg, Step(cfg, s, inputs[0]), inputs[1..])
  }

  /** A run starts with an idle venue and its opening books: fresh, or carried in. */
  function Start(opening: Books, risk: Risk.Manager): EngineState {
    EngineState(VenueState([], [], [], [], [], map[], map[], [], map[], 0), opening, risk, false)
  }

  ghost predicate InputsOn(pairs: iset<Pair>, inputs: seq<Input>) {
    forall i :: i in inputs ==> IntentsOn(pairs, i.intents)
  }

  predicate ValidInputs(inputs: seq<Input>) {
    forall i :: i in inputs ==> ValidInput(i)
  }

  lemma {:induction false} RunKeepsInvariant(pairs: iset<Pair>, cfg: EngineConfig, s: EngineState, inputs: seq<Input>,
                                             opening: Books)
    requires cfg.risk.costRate != -1.0 && FairFees(cfg.venue) && ValidInputs(inputs) && InputsOn(pairs, inputs)
    requires Invariant(pairs, s, opening)
    ensures Invariant(pairs, Run(cfg, s, inputs), opening)
    decreases |inputs|
  {
    if inputs != [] && !s.killed && !s.risk.halted {
      assert inputs[0] in inputs;
      StepKeepsInvariant(pairs, cfg, s, inputs[0], opening);
      RunKeepsInvariant(pairs, cfg, Step(cfg, s, inputs[0]), inputs[1..], opening);
    }
  }

  /** Over every run, from fresh or carried-in books: after each candle's fill loop the
      ledger and the venue differ by the opening position exactly, cash and positions are
      not negative, and no sell the strategy asked for was rejected by the ledger. */
  lemma {:induction false} EveryRunAgrees(cfg: EngineConfig, opening: Books, risk: Risk.Manager, inputs: seq<Input>,
                                          c: Candle)
    requires cfg.risk.costRate != -1.0 && FairFees(cfg.venue) && ValidInputs(inputs) && ValidCandle(c)
    requires Solvent(opening)
    ensures var s := Run(cfg, Start(opening, risk), inputs);
            var t := AfterFills(cfg, s, c);
            var fills := OnCandle(cfg.venue, s.venue, c).fills;
            && (forall p :: PositionOf(t.books, p).size == PositionAt(t.venue, p) + PositionOf(opening, p).size)
            && t.books.cash >= 0.0
            && (forall p :: PositionOf(t.books, p).size >= 0.0)
            && PaidIn(t.books) == PaidIn(opening)
            && |fills| == |t.accepted|
            && (forall k :: 0 <= k < |fills| && !t.accepted[k] ==>
                  fills[k].side.Buy? || k >= |OwnPhase(cfg.venue, s.venue, c).fills|)
  {
    FillLoopOfRun(ANY_PAIR, cfg, opening, risk, inputs, c);
  }

  lemma {:induction false} FillLoopOfRun(pairs: iset<Pair>, cfg: EngineConfig, opening: Books, risk: Risk.Manager,
                                         inputs: seq<Input>, c: Candle)
    requires cfg.risk.costRate != -1.0 && FairFees(cfg.venue) && ValidInputs(inputs) && ValidCandle(c)
    requires Solvent(opening) && InputsOn(pairs, inputs)
    ensures var s := Run(cfg, Start(opening, risk), inputs);
            var t := AfterFills(cfg, s, c);
            var own := OwnPhase(cfg.venue, s.venue, c).fills;
            var fills := OnCandle(cfg.venue, s.venue, c).fills;
            && Solvent(t.books) && Agree(t.venue, t.books, opening)
            && PaidIn(t.books) == PaidIn(opening) && KeysWithin(pairs, t.books, opening)
            && |own| <= |fills| == |t.accepted|
            && (forall k :: 0 <= k < |own| && fills[k].side.Sell? ==> t.accepted[k])
  {
    var start := Start(opening, risk);
    NothingPending(start.venue, opening);
    assert Invariant(pairs, start, opening);
    RunKeepsInvariant(pairs, cfg, start, inputs, opening);
    FillLoop(pairs, cfg, Run(cfg, start, inputs), c, opening);
  }

  /** The end-of-run close-out sells exactly the ledger's position and is accepted. */
  lemma CloseOutAccepted(pairs: iset<Pair>, cfg: EngineConfig, s: EngineState, c: Candle, opening: Books)
    requires FairFees(cfg.venue) && ValidCandle(c) && Invariant(pairs, s, opening)
    requires PositionOf(s.books, cfg.pair).size != 0.0
    ensures var (v, f) := Liquidate(cfg.venue, s.venue, cfg.pair, PositionOf(s.books, cfg.pair).size, c);
            var r := ApplySpot(s.books, f);
            && r.Success? && Solvent(r.value.books) && PositionOf(r.value.books, cfg.pair) == FLAT
            && Agree(v, r.value.books, opening)
  {
    var size := PositionOf(s.books, cfg.pair).size;
    var (v, f) := Liquidate(cfg.venue, s.venue, cfg.pair, size, c);
    SlippedNonNegative(cfg.venue, c.close, Sell);
    FairMakeFill(iset{cfg.pair}, LiquidationOrder(s.venue, cfg.pair, size, c), c.ts, f.price, cfg.venue.taker, Taker);
    var after := ApplySpot(s.books, f).value.books;
    SizeAfter(false, s.books, f, false);
    forall p ensures PositionOf(after, p).size - PositionAt(v, p) == PositionOf(opening, p).size {
      assert PositionOf(s.books, p).size - PositionAt(s.venue, p) == PositionOf(opening, p).size;
    }
  }

  // ----- the daily-loss floor -----

  /** What the strategy's stray buys of other pairs cost; zero when it stays on its pair. */
  ghost function ForeignCost(cfg: EngineConfig, b: Books): real {
    CostBasis(b.positions - {cfg.pair})
  }

  lemma CostBasisSplit(b: Books, pair: Pair)
    ensures CostBasis(b.positions) == Cost(PositionOf(b, pair)) + CostBasis(b.positions - {pair})
  {
    var costs := map p | p in b.positions :: Cost(b.positions[p]);
    var rest := b.positions - {pair};
    if pair in b.positions {
      assert (map p | p in rest :: Cost(rest[p])) == costs - {pair};
      Sums.SumRemove(costs, pair);
    } else {
      assert rest == b.positions;
    }
  }

  lemma NoCost(positions: map<Pair, Position>)
    requires positions == map[]
    ensures CostBasis(positions) == 0.0
  {
    assert (map p | p in positions :: Cost(positions[p])) == map[];
  }

  lemma FloorIsPairFloor(cfg: EngineConfig, b: Books, c: Candle)
    ensures Risk.FloorEquity(RiskStateAt(cfg, b, c)) == b.cash + Risk.FloorValue(PositionOf(b, cfg.pair), c.close)
  {
    var pos, st := PositionOf(b, cfg.pair), RiskStateAt(cfg, b, c);
    var values := map p | p in st.positions :: Risk.FloorValue(st.positions[p], Risk.Get(st.prices, p));
    assert values == map[cfg.pair := Risk.FloorValue(pos, c.close)];
    Sums.SumSingleton(cfg.pair, Risk.FloorValue(pos, c.close));
  }

  lemma PaidInSplit(cfg: EngineConfig, b: Books)
    ensures PaidIn(b) + b.realized == b.cash + Cost(PositionOf(b, cfg.pair)) + ForeignCost(cfg, b)
  {
    CostBasisSplit(b, cfg.pair);
  }

  /** The floor the rail watches is the lower of opening cash plus realized PnL and the equity. */
  lemma FloorIsRealizedOrEquity(cfg: EngineConfig, b: Books, opening: Books, c: Candle)
    requires PaidIn(b) == PaidIn(opening)
    ensures Risk.FloorEquity(RiskStateAt(cfg, b, c))
         == Min(PaidIn(opening) + b.realized - ForeignCost(cfg, b), EquityOf(b, map[cfg.pair := c.close]))
  {
    FloorIsPairFloor(cfg, b, c);
    PaidInSplit(cfg, b);
    OnlyPairValue(cfg, b, c);
  }

  lemma OnlyPairValue(cfg: EngineConfig, b: Books, c: Candle)
    ensures MarketValue(b.positions, map[cfg.pair := c.close]) == Worth(PositionOf(b, cfg.pair), c.close)
  {
    var prices := map[cfg.pair := c.close];
    var rest := b.positions - {cfg.pair};
    if cfg.pair in b.positions {
      MarketValueRemove(b.positions, prices, cfg.pair);
    } else {
      assert rest == b.positions;
    }
    Unpriced(rest, prices);
  }

  lemma {:induction false} Unpriced(positions: map<Pair, Position>, prices: map<Pair, real>)
    requires forall p :: p in positions ==> p !in prices
    ensures MarketValue(positions, prices) == 0.0
    decreases |positions|
  {
    if positions != map[] {
      var p :| p in positions;
      MarketValueRemove(positions, prices, p);
      Unpriced(positions - {p}, prices);
    } else {
      NoValue(positions, prices);
    }
  }

  lemma NoValue(positions: map<Pair, Position>, prices: map<Pair, real>)
    requires positions == map[]
    ensures MarketValue(positions, prices) == 0.0
  {
    assert (map p | p in positions :: ValueAt(positions[p], p, prices)) == map[];
  }

  /** Floor theorem: in a fresh run whose strategy stays on its pair, the daily-loss floor
      is min(opening cash + realized PnL, equity) at every candle. */
  lemma {:induction false} FloorOverEveryRun(cfg: EngineConfig, cash: real, inputs: seq<Input>, c: Candle)
    requires cfg.risk.costRate != -1.0 && FairFees(cfg.venue) && ValidInputs(inputs) && ValidCandle(c)
    requires cash >= 0.0 && InputsOn(iset{cfg.pair}, inputs)
    ensures FloorIsExact(cfg, cash,
        AfterFills(cfg, Run(cfg, Start(Books(cash, map[], 0.0), Risk.FRESH), inputs), c).books, c)
  {
    var opening := Books(cash, map[], 0.0);
    FillLoopOfRun(iset{cfg.pair}, cfg, opening, Risk.FRESH, inputs, c);
    FloorOfFreshBooks(cfg, AfterFills(cfg, Run(cfg, Start(opening, Risk.FRESH), inputs), c).books, opening, c);
  }

  /** In any fresh run, stray buys or not: the floor is min(opening cash + realized PnL, equity)
      at a candle if and only if no stray buy is held at a cost, or the equity is so low that it
      decides anyway. */
  lemma {:induction false} FloorExactly(cfg: EngineConfig, cash: real, inputs: seq<Input>, c: Candle)
    requires cfg.risk.costRate != -1.0 && FairFees(cfg.venue) && ValidInputs(inputs) && ValidCandle(c)
    requires cash >= 0.0
    ensures var b := AfterFills(cfg, Run(cfg, Start(Books(cash, map[], 0.0), Risk.FRESH), inputs), c).books;
            FloorIsExact(cfg, cash, b, c) <==> StrayBuysDoNotDecide(cfg, cash, b, c)
  {
    var opening := Books(cash, map[], 0.0);
    EveryRunAgrees(cfg, opening, Risk.FRESH, inputs, c);
    ExactWithoutStrayBuys(cfg, AfterFills(cfg, Run(cfg, Start(opening, Risk.FRESH), inputs), c).books, opening, c);
  }

  ghost predicate StrayBuysDoNotDecide(cfg: EngineConfig, cash: real, b: Books, c: Candle) {
    var equity, stray := EquityOf(b, map[cfg.pair := c.close]), ForeignCost(cfg, b);
    stray == 0.0 || equity <= Min(cash + b.realized, cash + b.realized - stray)
  }

  lemma ExactWithoutStrayBuys(cfg: EngineConfig, b: Books, opening: Books, c: Candle)
    requires opening.positions == map[] && opening.realized == 0.0 && PaidIn(b) == PaidIn(opening)
    ensures FloorIsExact(cfg, opening.cash, b, c) <==> StrayBuysDoNotDecide(cfg, opening.cash, b, c)
  {
    FreshPaidIn(opening);
    FloorIsRealizedOrEquity(cfg, b, opening, c);
  }

  /** The floor is the lower of opening cash plus realized PnL and the equity. */
  ghost predicate FloorIsExact(cfg: EngineConfig, cash: real, b: Books, c: Candle) {
    Risk.FloorEquity(RiskStateAt(cfg, b, c)) == Min(cash + b.realized, EquityOf(b, map[cfg.pair := c.close]))
  }

  lemma FloorOfFreshBooks(cfg: EngineConfig, b: Books, opening: Books, c: Candle)
    requires opening.positions == map[] && opening.realized == 0.0 && PaidIn(b) == PaidIn(opening)
    requires KeysWithin(iset{cfg.pair}, b, opening)
    ensures FloorIsExact(cfg, opening.cash, b, c)
  {
    FreshPaidIn(opening);
    NoForeignCost(cfg, b);
    FloorIsRealizedOrEquity(cfg, b, opening, c);
  }

  lemma FreshPaidIn(opening: Books)
    requires opening.positions == map[] && opening.realized == 0.0
    ensures PaidIn(opening) == opening.cash
  {
    NoCost(opening.positions);
  }

  lemma NoForeignCost(cfg: EngineConfig, b: Books)
    requires forall p :: p in b.positions ==> p == cfg.pair
    ensures ForeignCost(cfg, b) == 0.0
  {
    NoCost(b.positions - {cfg.pair});
  }

  /** So without a fill, a price that only gives back unrealized profit cannot move the rail. */
  lemma GivebacksDoNotMoveTheFloor(cfg: EngineConfig, b: Books, c: Candle, d: Candle)
    requires LongOnly(b)
    requires c.close >= PositionOf(b, cfg.pair).avgEntry && d.close >= PositionOf(b, cfg.pair).avgEntry
    ensures Risk.FloorEquity(RiskStateAt(cfg, b, c)) == Risk.FloorEquity(RiskStateAt(cfg, b, d))
  {
    FloorIsRealizedOrEquity(cfg, b, b, c);
    FloorIsRealizedOrEquity(cfg, b, b, d);
    CostBasisSplit(b, cfg.pair);
    OnlyPairValue(cfg, b, c);
    OnlyPairValue(cfg, b, d);
    WorthAboveCost(PositionOf(b, cfg.pair), c.close);
    WorthAboveCost(PositionOf(b, cfg.pair), d.close);
  }

  lemma WorthAboveCost(pos: Position, price: real)
    requires pos.size >= 0.0 && price >= pos.avgEntry
    ensures Worth(pos, price) >= Cost(pos)
  {}

  // ----- the engine object -----

  /** Apply each fill to the ledger; a rejected one is rolled back in its venue. */
  method ApplyFills(cfg: Risk.RiskConfig, venue: PaperVenue, ledger: L.Ledger, risk: Risk.RiskManager,
                    fills: seq<Fill>) returns (accepted: seq<bool>)
    requires risk.cfg == cfg && !ledger.perp
    modifies venue, ledger, risk
    ensures Settlement(venue.State(), ledger.Books(), risk.State(), accepted)
         == Settle(cfg, old(Settlement(venue.State(), ledger.Books(), risk.State(), [])), fills)
  {
    accepted := [];
    ghost var start := Settlement(venue.State(), ledger.Books(), risk.State(), []);
    for k := 0 to |fills|
      invariant Settle(cfg, start, fills)
             == Settle(cfg, Settlement(venue.State(), ledger.Books(), risk.State(), accepted), fills[k..])
    {
      assert fills[k..][1..] == fills[k + 1..];
      var applied := ledger.ApplyFill(fills[k]);
      match applied {
        case Failure(_) =>
          venue.Void(fills[k]);
          accepted := accepted + [false];
        case Success(realized) =>
          if fills[k].side.Sell? {
            risk.NotifyResult(realized);
          }
          accepted := accepted + [true];
      }
    }
  }

  class Engine {
    const cfg: EngineConfig
    const venue: PaperVenue
    const ledger: L.Ledger
    const risk: Risk.RiskManager
    var killed: bool

    ghost predicate Valid() {
      venue.cfg == cfg.venue && risk.cfg == cfg.risk && !ledger.perp && !cfg.risk.perp
    }

    ghost function State(): EngineState
      reads this, venue, ledger, risk
    {
      EngineState(venue.State(), ledger.Books(), risk.State(), killed)
    }

    constructor (cfg: EngineConfig, venue: PaperVenue, ledger: L.Ledger, risk: Risk.RiskManager)
      requires venue.cfg == cfg.venue && risk.cfg == cfg.risk && !ledger.perp && !cfg.risk.perp
      ensures Valid() && this.venue == venue && this.ledger == ledger && this.risk == risk
      ensures State() == EngineState(venue.State(), ledger.Books(), risk.State(), false)
    {
      this.cfg, this.venue, this.ledger, this.risk, killed := cfg, venue, ledger, risk, false;
    }

    /** Send every approved intent to the venue. */
    method SubmitApproved(batch: seq<Risk.Assessment>, ts: int)
      modifies venue
      ensures venue.State() == SubmitAll(old(venue.State()), batch, ts)
    {
      for k := 0 to |batch|
        invariant SubmitAll(old(venue.State()), batch, ts) == SubmitAll(venue.State(), batch[k..], ts)
      {
        assert batch[k..][0] == batch[k] && batch[k..][1..] == batch[k + 1..];
        if !batch[k].decision.Refused? {
          var order := OrderFrom(batch[k], ts, venue.nextId);
          venue.SubmitOrder(order);
          venue.nextId := venue.nextId + 1;
        }
      }
    }

    /** One candle; `i.intents` is what the strategy answers when it is asked. */
    method ProcessCandle(i: Input)
      requires Valid() && cfg.risk.costRate != -1.0
      modifies this, venue, ledger, risk
      ensures State() == Step(cfg, old(State()), i)
    {
      var c := i.candle;
      var fills := venue.CandleStep(c);
      var _ := venue.DrainNewOrders();
      var _ := venue.DrainExpired();
      var _ := ApplyFills(cfg.risk, venue, ledger, risk, fills);
      var _ := ledger.DrainEntries();
      assert Settlement(venue.State(), ledger.Books(), risk.State(), AfterFills(cfg, old(State()), c).accepted)
          == AfterFills(cfg, old(State()), c);
      var st := RiskStateAt(cfg, ledger.Books(), c);
      var mayContinue := risk.CandleStep(st);
      if !mayContinue {
        return;
      }
      match i.control {
        case Kill => killed := true;
        case Pause =>
        case Proceed =>
          var batch := risk.AssessIntents(i.intents, st);
          SubmitApproved(batch, c.ts);
      }
    }
  }
}
