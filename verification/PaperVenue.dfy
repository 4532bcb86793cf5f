/** The paper venue: deterministic simulated execution against candles
    (kaupo/venues/paper.py). */
module PaperVenue {
  import opened Domain

  datatype Order = Order(id: OrderId, pair: Pair, side: Side, orderType: OrderType, size: real,
                         limitPrice: Option<real>, stopLoss: Option<real>, takeProfit: Option<real>,
                         createdTs: int, status: OrderStatus, filledPrice: Option<real>,
                         filledTs: Option<int>, fee: real)

  /** How a limit that would take liquidity when posted is treated. */
  datatype MarketableLimit = AsMaker | AsTaker | Skip

  datatype VenueConfig = VenueConfig(taker: real, maker: real, slip: real, mode: MarketableLimit)

  /** A filled entry with its stop-loss and take-profit. */
  datatype Protection = Protection(entry: Order, stopLoss: Option<real>, takeProfit: Option<real>)

  datatype VenueState = VenueState(marketQueue: seq<Order>, limitOpen: seq<Order>, expired: seq<Order>,
                                   protections: seq<Protection>, newlyArmed: seq<Protection>,
                                   protByExit: map<OrderId, Protection>, orders: map<OrderId, Order>,
                                   newOrders: seq<Order>, positions: map<Pair, real>, nextId: nat)

  function PositionAt(v: VenueState, pair: Pair): real {
    if pair in v.positions then v.positions[pair] else 0.0
  }

  // ----- prices -----

  predicate IsMarketableAtPosting(side: Side, limitPrice: real, open: real) {
    if side.Buy? then limitPrice >= open else limitPrice <= open
  }

  function Slipped(cfg: VenueConfig, price: real, side: Side): real {
    if side.Buy? then price * (1.0 + cfg.slip) else price * (1.0 - cfg.slip)
  }

  function MakeFill(o: Order, ts: int, price: real, rate: real, tier: Tier): Fill {
    Fill(o.id, o.pair, o.side, ts, price, o.size, price * o.size * rate, Some(tier))
  }

  function FilledOrder(o: Order, f: Fill): Order {
    o.(status := Filled, filledPrice := Some(f.price), filledTs := Some(f.ts), fee := f.fee)
  }

  function FillMarket(cfg: VenueConfig, o: Order, c: Candle): Fill {
    MakeFill(o, c.ts, Slipped(cfg, c.open, o.side), cfg.taker, Taker)
  }

  predicate SkipsAsMarketable(cfg: VenueConfig, o: Order, c: Candle) {
    cfg.mode.Skip? && o.limitPrice.Some? && IsMarketableAtPosting(o.side, o.limitPrice.value, c.open)
  }

  function TryLimit(cfg: VenueConfig, o: Order, c: Candle): Option<Fill>
    requires o.limitPrice.Some?
  {
    var limit := o.limitPrice.value;
    var takes := cfg.mode.AsTaker? && IsMarketableAtPosting(o.side, limit, c.open);
    var (rate, tier) := if takes then (cfg.taker, Taker) else (cfg.maker, Maker);
    if o.side.Buy? && c.low <= limit then Some(MakeFill(o, c.ts, Min(limit, c.open), rate, tier))
    else if o.side.Sell? && c.high >= limit then Some(MakeFill(o, c.ts, Max(limit, c.open), rate, tier))
    else None
  }

  /** What a resting limit does on a candle; only the period after its decision can fill it.
      (A limit order always has its price: OrderIntent refuses any other.) */
  function LimitOutcome(cfg: VenueConfig, o: Order, c: Candle): Option<Fill> {
    if o.limitPrice.None? then None
    else if c.ts > o.createdTs + c.seconds || SkipsAsMarketable(cfg, o, c) then None else TryLimit(cfg, o, c)
  }

  /** The exit order a triggered protection sends, clamped to what is left. */
  function ExitOrder(v: VenueState, p: Protection, c: Candle): Order {
    Order(Local(v.nextId), p.entry.pair, if p.entry.side.Buy? then Sell else Buy, Market,
          Min(p.entry.size, PositionAt(v, p.entry.pair)), None, None, None, c.ts, Open, None, None, 0.0)
  }

  /** The exit fill, if the stop-loss (first) or the take-profit triggers. */
  function CheckProtection(cfg: VenueConfig, v: VenueState, p: Protection, c: Candle): Option<Fill> {
    var exit := ExitOrder(v, p, c);
    var long := p.entry.side.Buy?;
    if p.stopLoss.Some? && (if long then c.low <= p.stopLoss.value else c.high >= p.stopLoss.value) then
      Some(MakeFill(exit, c.ts, Slipped(cfg, Min(p.stopLoss.value, c.open), exit.side), cfg.taker, Taker))
    else if p.takeProfit.Some? && (if long then c.high >= p.takeProfit.value else c.low <= p.takeProfit.value) then
      Some(MakeFill(exit, c.ts, Max(p.takeProfit.value, c.open), cfg.maker, Maker))
    else None
  }

  // ----- state changes -----

  function OtherPairs(ps: seq<Protection>, pair: Pair): seq<Protection> {
    if ps == [] then []
    else (if ps[0].entry.pair != pair then [ps[0]] else []) + OtherPairs(ps[1..], pair)
  }

  function OtherOrders(ps: seq<Protection>, id: OrderId): seq<Protection> {
    if ps == [] then []
    else (if ps[0].entry.id != id then [ps[0]] else []) + OtherOrders(ps[1..], id)
  }

  /** A fill moves the tracked position; flat at any point drops the pair's protections. */
  function TrackPosition(v: VenueState, f: Fill): VenueState {
    var size := PositionAt(v, f.pair) + Delta(f, f.pair);
    var moved := v.(positions := v.positions[f.pair := size]);
    if size <= 0.0 then
      moved.(protections := OtherPairs(v.protections, f.pair), newlyArmed := OtherPairs(v.newlyArmed, f.pair))
    else moved
  }

  /** `x or y` on optional prices: a zero price counts as absent. */
  predicate Given(price: Option<real>) {
    price.Some? && price.value != 0.0
  }

  function ArmProtection(v: VenueState, o: Order): VenueState {
    if o.side.Buy? && o.status.Filled? && (Given(o.stopLoss) || Given(o.takeProfit)) then
      v.(newlyArmed := v.newlyArmed + [Protection(o, o.stopLoss, o.takeProfit)])
    else v
  }

  /** An order of the queues fills: table, position, then its protection. */
  function FillOrder(v: VenueState, o: Order, f: Fill): VenueState {
    var filled := FilledOrder(o, f);
    ArmProtection(TrackPosition(v.(orders := v.orders[o.id := filled]), f), filled)
  }

  function ExpireOrder(v: VenueState, o: Order): VenueState {
    var cancelled := o.(status := Cancelled);
    v.(orders := v.orders[o.id := cancelled], expired := v.expired + [cancelled])
  }

  /** A protection fires: its exit order is new, filled, and remembered for a rollback. */
  function FireProtection(v: VenueState, p: Protection, f: Fill, c: Candle): VenueState {
    var exit := FilledOrder(ExitOrder(v, p, c), f);
    TrackPosition(v.(orders := v.orders[exit.id := exit], newOrders := v.newOrders + [exit],
                     protByExit := v.protByExit[exit.id := p], nextId := v.nextId + 1), f)
  }

  // ----- one candle -----

  datatype Progress = Progress(venue: VenueState, fills: seq<Fill>)

  function MarketStep(cfg: VenueConfig, pr: Progress, o: Order, c: Candle): Progress {
    var f := FillMarket(cfg, o, c);
    Progress(FillOrder(pr.venue, o, f), pr.fills + [f])
  }

  function MarketPhase(cfg: VenueConfig, pr: Progress, queue: seq<Order>, c: Candle): Progress
    decreases |queue|
  {
    if queue == [] then pr else MarketPhase(cfg, MarketStep(cfg, pr, queue[0], c), queue[1..], c)
  }

  function LimitStep(cfg: VenueConfig, pr: Progress, o: Order, c: Candle): Progress {
    match LimitOutcome(cfg, o, c)
    case Some(f) => Progress(FillOrder(pr.venue, o, f), pr.fills + [f])
    case None => pr.(venue := ExpireOrder(pr.venue, o))
  }

  function LimitPhase(cfg: VenueConfig, pr: Progress, queue: seq<Order>, c: Candle): Progress
    decreases |queue|
  {
    if queue == [] then pr else LimitPhase(cfg, LimitStep(cfg, pr, queue[0], c), queue[1..], c)
  }

  /** The protection loop walks the list it started with and collects the survivors. */
  datatype Sweep = Sweep(progress: Progress, survivors: seq<Protection>)

  function ProtectionStep(cfg: VenueConfig, s: Sweep, p: Protection, c: Candle): Sweep {
    var v := s.progress.venue;
    if PositionAt(v, p.entry.pair) <= 0.0 then s
    else
      match CheckProtection(cfg, v, p, c)
      case None => s.(survivors := s.survivors + [p])
      case Some(f) => s.(progress := Progress(FireProtection(v, p, f, c), s.progress.fills + [f]))
  }

  function ProtectionPhase(cfg: VenueConfig, s: Sweep, ps: seq<Protection>, c: Candle): Sweep
    decreases |ps|
  {
    if ps == [] then s else ProtectionPhase(cfg, ProtectionStep(cfg, s, ps[0], c), ps[1..], c)
  }

  function PruneOrders(v: VenueState): VenueState {
    v.(orders := map id | id in v.orders && !v.orders[id].status.Filled? && !v.orders[id].status.Cancelled?
                     :: v.orders[id])
  }

  /** Market orders at the open, then limits: the candle's own fills, before any protection. */
  function OwnPhase(cfg: VenueConfig, v: VenueState, c: Candle): Progress {
    var start := Progress(PruneOrders(v).(marketQueue := []), []);
    var afterMarket := MarketPhase(cfg, start, v.marketQueue, c);
    LimitPhase(cfg, afterMarket.(venue := afterMarket.venue.(limitOpen := [])), v.limitOpen, c)
  }

  function OnCandle(cfg: VenueConfig, v: VenueState, c: Candle): Progress {
    var own := OwnPhase(cfg, v, c);
    var swept := ProtectionPhase(cfg, Sweep(own, []), own.venue.protections, c);
    var after := swept.progress.venue;
    swept.progress.(venue := after.(protections := swept.survivors + after.newlyArmed, newlyArmed := []))
  }

  function Untrack(v: VenueState, f: Fill): VenueState {
    v.(positions := v.positions[f.pair := PositionAt(v, f.pair) - Delta(f, f.pair)])
  }

  /** A voided order is rejected, and a voided entry leaves no protection armed. */
  function RejectOrder(v: VenueState, id: OrderId): VenueState {
    if id !in v.orders then v
    else
      v.(orders := v.orders[id := v.orders[id].(status := Rejected, filledPrice := None, filledTs := None, fee := 0.0)],
         protections := OtherOrders(v.protections, id), newlyArmed := OtherOrders(v.newlyArmed, id))
  }

  /** A voided exit re-arms the protection it consumed. */
  function Rearm(v: VenueState, id: OrderId): VenueState {
    if id !in v.protByExit then v
    else v.(protections := v.protections + [v.protByExit[id]], protByExit := v.protByExit - {id})
  }

  /** Roll back a fill the ledger rejected. */
  function VoidFill(v: VenueState, f: Fill): VenueState {
    Rearm(RejectOrder(Untrack(v, f), f.orderId), f.orderId)
  }

  function Submit(v: VenueState, o: Order): VenueState {
    var known := v.(orders := v.orders[o.id := o]);
    if o.orderType.Market? then known.(marketQueue := v.marketQueue + [o])
    else known.(limitOpen := v.limitOpen + [o])
  }

  /** The order an end-of-run close-out sends; `size` is signed. */
  function LiquidationOrder(v: VenueState, pair: Pair, size: real, c: Candle): Order {
    Order(Local(v.nextId), pair, if size > 0.0 then Sell else Buy, Market, Abs(size),
          None, None, None, c.ts, Open, None, None, 0.0)
  }

  function Liquidate(cfg: VenueConfig, v: VenueState, pair: Pair, size: real, c: Candle): (VenueState, Fill) {
    var o := LiquidationOrder(v, pair, size, c);
    var f := MakeFill(o, c.ts, Slipped(cfg, c.close, o.side), cfg.taker, Taker);
    var filled := FilledOrder(o, f);
    (TrackPosition(v.(orders := v.orders[o.id := filled], newOrders := v.newOrders + [filled],
                      nextId := v.nextId + 1), f), f)
  }

  // ----- what the venue promises -----

  /** Fee-tier fidelity: against a real candle, a limit that is marketable at
      posting fills under the touch rule at the open, so `taker` changes its fee
      and `skip` removes it; every other limit is the same in all three modes. */
  lemma ModesDifferOnlyOnMarketableLimits(cfg: VenueConfig, o: Order, c: Candle)
    requires o.limitPrice.Some? && ValidCandle(c) && c.ts <= o.createdTs + c.seconds
    ensures var maker := LimitOutcome(cfg.(mode := AsMaker), o, c);
            var taker := LimitOutcome(cfg.(mode := AsTaker), o, c);
            var skip := LimitOutcome(cfg.(mode := Skip), o, c);
            if IsMarketableAtPosting(o.side, o.limitPrice.value, c.open)
            then && maker == Some(MakeFill(o, c.ts, c.open, cfg.maker, Maker))
                 && taker == Some(MakeFill(o, c.ts, c.open, cfg.taker, Taker))
                 && skip == None
            else maker == taker == skip
  {}

  /** A limit never fills at a price worse than its own, outside the candle, or after a gap. */
  lemma LimitFillsAreFair(cfg: VenueConfig, o: Order, c: Candle)
    requires o.limitPrice.Some? && ValidCandle(c) && LimitOutcome(cfg, o, c).Some?
    ensures var f := LimitOutcome(cfg, o, c).value;
            && c.low <= f.price <= c.high
            && (if o.side.Buy? then f.price <= o.limitPrice.value else f.price >= o.limitPrice.value)
            && c.ts <= o.createdTs + c.seconds
            && f.size == o.size
  {}

  // ----- what a rollback restores -----

  lemma {:induction false} OtherOrdersAre(ps: seq<Protection>, id: OrderId, p: Protection)
    ensures p in OtherOrders(ps, id) <==> p in ps && p.entry.id != id
  {
    if ps != [] {
      assert ps == [ps[0]] + ps[1..];
      OtherOrdersAre(ps[1..], id, p);
    }
  }

  lemma {:induction false} OtherPairsAre(ps: seq<Protection>, pair: Pair, p: Protection)
    ensures p in OtherPairs(ps, pair) <==> p in ps && p.entry.pair != pair
  {
    if ps != [] {
      assert ps == [ps[0]] + ps[1..];
      OtherPairsAre(ps[1..], pair, p);
    }
  }

  lemma {:induction false} NothingOfOrder(ps: seq<Protection>, id: OrderId)
    requires forall p :: p in ps ==> p.entry.id != id
    ensures OtherOrders(ps, id) == ps
  {
    if ps != [] {
      assert ps[0] in ps && ps == [ps[0]] + ps[1..];
      NothingOfOrder(ps[1..], id);
    }
  }

  /** A protection that triggers sells what it guards, at most what is tracked; other pairs stay. */
  lemma FiringSellsWhatIsTracked(cfg: VenueConfig, v: VenueState, p: Protection, c: Candle)
    requires p.entry.side.Buy? && p.entry.size >= 0.0 && PositionAt(v, p.entry.pair) > 0.0
    requires CheckProtection(cfg, v, p, c).Some?
    ensures var f := CheckProtection(cfg, v, p, c).value;
            var after := FireProtection(v, p, f, c);
            && f.side.Sell? && f.size == Min(p.entry.size, PositionAt(v, p.entry.pair))
            && 0.0 <= PositionAt(after, p.entry.pair) == PositionAt(v, p.entry.pair) - f.size
            && (forall q :: q != p.entry.pair ==> PositionAt(after, q) == PositionAt(v, q))
            && f.orderId in after.protByExit && after.protByExit[f.orderId] == p
  {}

  /** No protection guards an order with this id. */
  ghost predicate Unguarded(v: VenueState, id: OrderId) {
    (forall p :: p in v.protections ==> p.entry.id != id) && (forall p :: p in v.newlyArmed ==> p.entry.id != id)
  }

  /** Rolling back an exit arms the protection it consumed again, behind all that are armed. */
  lemma RollbackRearms(v: VenueState, f: Fill)
    requires f.orderId in v.protByExit && forall p :: p in v.protections ==> p.entry.id != f.orderId
    ensures VoidFill(v, f).protections == v.protections + [v.protByExit[f.orderId]]
  {
    NothingOfOrder(v.protections, f.orderId);
  }

  /** Exactly what a rollback does to any state: the fill's own position goes back, its order is
      rejected, the protections of that order are gone, the one its exit consumed is armed again,
      and nothing else is touched. */
  lemma VoidRestores(v: VenueState, f: Fill)
    ensures var after := VoidFill(v, f);
            && (forall q :: PositionAt(after, q) == PositionAt(v, q) - Delta(f, q))
            && after.orders.Keys == v.orders.Keys
            && (forall id :: id in v.orders && id != f.orderId ==> after.orders[id] == v.orders[id])
            && (f.orderId in v.orders ==>
                  var was, now := v.orders[f.orderId], after.orders[f.orderId];
                  && now.status == Rejected && now.filledPrice.None? && now.filledTs.None? && now.fee == 0.0
                  && now == was.(status := now.status, filledPrice := now.filledPrice, filledTs := now.filledTs,
                                 fee := now.fee))
            && (forall p :: p in after.protections <==>
                  || (p in v.protections && (f.orderId in v.orders ==> p.entry.id != f.orderId))
                  || (f.orderId in v.protByExit && p == v.protByExit[f.orderId]))
            && after.protByExit == v.protByExit - {f.orderId}
            && after.marketQueue == v.marketQueue && after.limitOpen == v.limitOpen
            && after.expired == v.expired && after.newOrders == v.newOrders && after.nextId == v.nextId
  {
    forall p ensures p in OtherOrders(v.protections, f.orderId) <==> p in v.protections && p.entry.id != f.orderId {
      OtherOrdersAre(v.protections, f.orderId, p);
    }
  }

  // ----- what the sweep leaves armed -----

  /** The venue when the sweep comes to ps[j]. */
  function AtTurn(cfg: VenueConfig, s: Sweep, ps: seq<Protection>, c: Candle, j: nat): VenueState
    requires j <= |ps|
  {
    ProtectionPhase(cfg, s, ps[..j], c).progress.venue
  }

  /** Something is tracked and the candle does not trigger the protection. */
  predicate StaysArmed(cfg: VenueConfig, v: VenueState, p: Protection, c: Candle) {
    PositionAt(v, p.entry.pair) > 0.0 && CheckProtection(cfg, v, p, c).None?
  }

  /** The protection triggers and its exit leaves nothing of the pair. */
  predicate Flattens(cfg: VenueConfig, v: VenueState, p: Protection, c: Candle, pair: Pair) {
    && p.entry.pair == pair && PositionAt(v, pair) > 0.0
    && match CheckProtection(cfg, v, p, c)
       case None => false
       case Some(f) => PositionAt(FireProtection(v, p, f, c), pair) <= 0.0
  }

  lemma NextTurn(cfg: VenueConfig, s: Sweep, ps: seq<Protection>, c: Candle, j: nat)
    requires j < |ps|
    ensures AtTurn(cfg, s, ps, c, j + 1) == AtTurn(cfg, ProtectionStep(cfg, s, ps[0], c), ps[1..], c, j)
    ensures AtTurn(cfg, s, ps, c, 0) == s.progress.venue
  {
    assert ps[..j + 1][1..] == ps[1..][..j] && ps[..0] == [];
  }

  /** At some turn of `p` the sweep leaves it armed. */
  ghost predicate KeptAtTurn(cfg: VenueConfig, s: Sweep, ps: seq<Protection>, c: Candle, p: Protection) {
    exists j :: 0 <= j < |ps| && ps[j] == p && StaysArmed(cfg, AtTurn(cfg, s, ps, c, j), p, c)
  }

  lemma KeptLater(cfg: VenueConfig, s: Sweep, ps: seq<Protection>, c: Candle, p: Protection)
    requires ps != []
    ensures KeptAtTurn(cfg, s, ps, c, p)
       <==> (ps[0] == p && StaysArmed(cfg, s.progress.venue, p, c))
            || KeptAtTurn(cfg, ProtectionStep(cfg, s, ps[0], c), ps[1..], c, p)
  {
    var next, rest := ProtectionStep(cfg, s, ps[0], c), ps[1..];
    NextTurn(cfg, s, ps, c, 0);
    if KeptAtTurn(cfg, s, ps, c, p) {
      var j :| 0 <= j < |ps| && ps[j] == p && StaysArmed(cfg, AtTurn(cfg, s, ps, c, j), p, c);
      if j > 0 {
        NextTurn(cfg, s, ps, c, j - 1);
        assert rest[j - 1] == p && StaysArmed(cfg, AtTurn(cfg, next, rest, c, j - 1), p, c);
      }
    }
    if KeptAtTurn(cfg, next, rest, c, p) {
      var j :| 0 <= j < |rest| && rest[j] == p && StaysArmed(cfg, AtTurn(cfg, next, rest, c, j), p, c);
      NextTurn(cfg, s, ps, c, j);
      assert ps[j + 1] == p && StaysArmed(cfg, AtTurn(cfg, s, ps, c, j + 1), p, c);
    }
    if ps[0] == p && StaysArmed(cfg, s.progress.venue, p, c) {
      assert StaysArmed(cfg, AtTurn(cfg, s, ps, c, 0), p, c);
    }
  }

  /** The survivors are the protections whose turn came while something was tracked and that the
      candle did not trigger, whatever an exit before or behind them did. */
  lemma {:induction false} SurvivorsAre(cfg: VenueConfig, s: Sweep, ps: seq<Protection>, c: Candle, p: Protection)
    ensures p in ProtectionPhase(cfg, s, ps, c).survivors <==> p in s.survivors || KeptAtTurn(cfg, s, ps, c, p)
    decreases |ps|
  {
    if ps != [] {
      KeptLater(cfg, s, ps, c, p);
      SurvivorsAre(cfg, ProtectionStep(cfg, s, ps[0], c), ps[1..], c, p);
    }
  }

  /** At some turn an exit leaves nothing of the pair. */
  ghost predicate FlattenedAtTurn(cfg: VenueConfig, s: Sweep, ps: seq<Protection>, c: Candle, pair: Pair) {
    exists j :: 0 <= j < |ps| && Flattens(cfg, AtTurn(cfg, s, ps, c, j), ps[j], c, pair)
  }

  lemma FlattenedLater(cfg: VenueConfig, s: Sweep, ps: seq<Protection>, c: Candle, pair: Pair)
    requires ps != []
    ensures FlattenedAtTurn(cfg, s, ps, c, pair)
       <==> Flattens(cfg, s.progress.venue, ps[0], c, pair)
            || FlattenedAtTurn(cfg, ProtectionStep(cfg, s, ps[0], c), ps[1..], c, pair)
  {
    if FlattenedAtTurn(cfg, s, ps, c, pair) {
      FlattensNowOrLater(cfg, s, ps, c, pair);
    }
    if Flattens(cfg, s.progress.venue, ps[0], c, pair) {
      NextTurn(cfg, s, ps, c, 0);
      assert Flattens(cfg, AtTurn(cfg, s, ps, c, 0), ps[0], c, pair);
    }
    var next, rest := ProtectionStep(cfg, s, ps[0], c), ps[1..];
    if FlattenedAtTurn(cfg, next, rest, c, pair) {
      var j :| 0 <= j < |rest| && Flattens(cfg, AtTurn(cfg, next, rest, c, j), rest[j], c, pair);
      NextTurn(cfg, s, ps, c, j);
      assert Flattens(cfg, AtTurn(cfg, s, ps, c, j + 1), ps[j + 1], c, pair);
    }
  }

  lemma FlattensNowOrLater(cfg: VenueConfig, s: Sweep, ps: seq<Protection>, c: Candle, pair: Pair)
    requires FlattenedAtTurn(cfg, s, ps, c, pair)
    ensures ps != []
    ensures Flattens(cfg, s.progress.venue, ps[0], c, pair)
         || FlattenedAtTurn(cfg, ProtectionStep(cfg, s, ps[0], c), ps[1..], c, pair)
  {
    var j :| 0 <= j < |ps| && Flattens(cfg, AtTurn(cfg, s, ps, c, j), ps[j], c, pair);
    NextTurn(cfg, s, ps, c, if j > 0 then j - 1 else 0);
    if j > 0 {
      var next, rest := ProtectionStep(cfg, s, ps[0], c), ps[1..];
      assert Flattens(cfg, AtTurn(cfg, next, rest, c, j - 1), rest[j - 1], c, pair);
    }
  }

  lemma StepKeepsNewlyArmed(cfg: VenueConfig, s: Sweep, p: Protection, c: Candle, q: Protection)
    ensures q in ProtectionStep(cfg, s, p, c).progress.venue.newlyArmed
       <==> q in s.progress.venue.newlyArmed && !Flattens(cfg, s.progress.venue, p, c, q.entry.pair)
  {
    OtherPairsAre(s.progress.venue.newlyArmed, p.entry.pair, q);
  }

  /** What this candle's entries armed survives the sweep unless an exit leaves nothing of its pair. */
  lemma {:induction false} NewlyArmedAre(cfg: VenueConfig, s: Sweep, ps: seq<Protection>, c: Candle, q: Protection)
    ensures q in ProtectionPhase(cfg, s, ps, c).progress.venue.newlyArmed
       <==> q in s.progress.venue.newlyArmed && !FlattenedAtTurn(cfg, s, ps, c, q.entry.pair)
    decreases |ps|
  {
    if ps != [] {
      FlattenedLater(cfg, s, ps, c, q.entry.pair);
      StepKeepsNewlyArmed(cfg, s, ps[0], c, q);
      NewlyArmedAre(cfg, ProtectionStep(cfg, s, ps[0], c), ps[1..], c, q);
    }
  }

  /** What a candle leaves armed, once its market and limit orders are done. */
  ghost predicate ArmedByCandle(cfg: VenueConfig, own: Progress, c: Candle, p: Protection) {
    || KeptAtTurn(cfg, Sweep(own, []), own.venue.protections, c, p)
    || (p in own.venue.newlyArmed
        && !FlattenedAtTurn(cfg, Sweep(own, []), own.venue.protections, c, p.entry.pair))
  }

  /** Exactly what is armed after a candle: protections whose turn in the sweep left them armed, and
      those of the candle's own entries whose pair no exit sold out. */
  lemma ArmedAfterCandle(cfg: VenueConfig, v: VenueState, c: Candle, p: Protection)
    ensures p in OnCandle(cfg, v, c).venue.protections <==> ArmedByCandle(cfg, OwnPhase(cfg, v, c), c, p)
  {
    var own := OwnPhase(cfg, v, c);
    SurvivorsAre(cfg, Sweep(own, []), own.venue.protections, c, p);
    NewlyArmedAre(cfg, Sweep(own, []), own.venue.protections, c, p);
  }

  /** Closing out sells or buys back the whole signed size: the tracked position moves by exactly
      that, other pairs stay, and a long position closed in full leaves none of its protections. */
  lemma CloseOutFlattens(cfg: VenueConfig, v: VenueState, pair: Pair, size: real, c: Candle)
    ensures var (after, f) := Liquidate(cfg, v, pair, size, c);
            && f.size == Abs(size) && f.side == (if size > 0.0 then Sell else Buy) && f.tier == Some(Taker)
            && PositionAt(after, pair) == PositionAt(v, pair) - size
            && (forall q :: q != pair ==> PositionAt(after, q) == PositionAt(v, q))
            && (PositionAt(v, pair) <= size ==>
                  forall p :: p in after.protections <==> p in v.protections && p.entry.pair != pair)
  {
    forall p ensures p in OtherPairs(v.protections, pair) <==> p in v.protections && p.entry.pair != pair {
      OtherPairsAre(v.protections, pair, p);
    }
  }

  /** The tracked position is the sum of the fills handed out, in every phase. */
  ghost predicate Tracks(before: Progress, after: Progress) {
    forall p :: PositionAt(after.venue, p) - NetDelta(after.fills, p)
             == PositionAt(before.venue, p) - NetDelta(before.fills, p)
  }

  lemma TrackStep(v: VenueState, fills: seq<Fill>, after: VenueState, f: Fill)
    requires after.positions == TrackPosition(v, f).positions
    ensures Tracks(Progress(v, fills), Progress(after, fills + [f]))
  {
    forall p ensures NetDelta(fills + [f], p) == NetDelta(fills, p) + Delta(f, p) {
      NetDeltaAppend(fills, [f], p);
    }
  }

  lemma {:induction false} MarketTracks(cfg: VenueConfig, pr: Progress, queue: seq<Order>, c: Candle)
    ensures Tracks(pr, MarketPhase(cfg, pr, queue, c))
    decreases |queue|
  {
    if queue != [] {
      TrackStep(pr.venue, pr.fills, MarketStep(cfg, pr, queue[0], c).venue, FillMarket(cfg, queue[0], c));
      MarketTracks(cfg, MarketStep(cfg, pr, queue[0], c), queue[1..], c);
    }
  }

  lemma {:induction false} LimitTracks(cfg: VenueConfig, pr: Progress, queue: seq<Order>, c: Candle)
    ensures Tracks(pr, LimitPhase(cfg, pr, queue, c))
    decreases |queue|
  {
    if queue != [] {
      var next := LimitStep(cfg, pr, queue[0], c);
      if LimitOutcome(cfg, queue[0], c).Some? {
        TrackStep(pr.venue, pr.fills, next.venue, LimitOutcome(cfg, queue[0], c).value);
      }
      LimitTracks(cfg, next, queue[1..], c);
    }
  }

  lemma {:induction false} ProtectionTracks(cfg: VenueConfig, s: Sweep, ps: seq<Protection>, c: Candle)
    ensures Tracks(s.progress, ProtectionPhase(cfg, s, ps, c).progress)
    decreases |ps|
  {
    if ps != [] {
      var v := s.progress.venue;
      var next := ProtectionStep(cfg, s, ps[0], c);
      if PositionAt(v, ps[0].entry.pair) > 0.0 && CheckProtection(cfg, v, ps[0], c).Some? {
        TrackStep(v, s.progress.fills, next.progress.venue, CheckProtection(cfg, v, ps[0], c).value);
      }
      ProtectionTracks(cfg, next, ps[1..], c);
    }
  }

  /** After a candle the tracked position has moved by exactly the fills returned. */
  lemma OnCandleTracksItsFills(cfg: VenueConfig, v: VenueState, c: Candle)
    ensures forall p :: PositionAt(OnCandle(cfg, v, c).venue, p)
                     == PositionAt(v, p) + NetDelta(OnCandle(cfg, v, c).fills, p)
  {
    var start := Progress(PruneOrders(v).(marketQueue := []), []);
    var afterMarket := MarketPhase(cfg, start, v.marketQueue, c);
    MarketTracks(cfg, start, v.marketQueue, c);
    LimitTracks(cfg, afterMarket.(venue := afterMarket.venue.(limitOpen := [])), v.limitOpen, c);
    var own := OwnPhase(cfg, v, c);
    ProtectionTracks(cfg, Sweep(own, []), own.venue.protections, c);
    forall p ensures PositionAt(OnCandle(cfg, v, c).venue, p)
                  == PositionAt(v, p) + NetDelta(OnCandle(cfg, v, c).fills, p)
    {
      assert NetDelta(start.fills, p) == 0.0;
      assert PositionAt(start.venue, p) == PositionAt(v, p);
    }
  }

  // ----- the venue object -----

  class PaperVenue {
    const cfg: VenueConfig
    var marketQueue: seq<Order>
    var limitOpen: seq<Order>
    var expired: seq<Order>
    var protections: seq<Protection>
    var newlyArmed: seq<Protection>
    var protByExit: map<OrderId, Protection>
    var orders: map<OrderId, Order>
    var newOrders: seq<Order>
    var positions: map<Pair, real>
    var nextId: nat

    function State(): VenueState
      reads this
    {
      VenueState(marketQueue, limitOpen, expired, protections, newlyArmed, protByExit, orders, newOrders,
                 positions, nextId)
    }

    constructor (cfg: VenueConfig)
      ensures this.cfg == cfg
      ensures State() == VenueState([], [], [], [], [], map[], map[], [], map[], 0)
    {
      this.cfg := cfg;
      marketQueue, limitOpen, expired, protections, newlyArmed := [], [], [], [], [];
      protByExit, orders, newOrders, positions, nextId := map[], map[], [], map[], 0;
    }

    method SubmitOrder(o: Order)
      modifies this
      ensures State() == Submit(old(State()), o)
    {
      orders := orders[o.id := o];
      if o.orderType.Market? {
        marketQueue := marketQueue + [o];
      } else {
        limitOpen := limitOpen + [o];
      }
    }

    method DrainNewOrders() returns (out: seq<Order>)
      modifies this
      ensures out == old(newOrders) && State() == old(State()).(newOrders := [])
    {
      out, newOrders := newOrders, [];
    }

    method DrainExpired() returns (out: seq<Order>)
      modifies this
      ensures out == old(expired) && State() == old(State()).(expired := [])
    {
      out, expired := expired, [];
    }

    method Track(f: Fill)
      modifies this
      ensures State() == TrackPosition(old(State()), f)
    {
      positions := positions[f.pair := (if f.pair in positions then positions[f.pair] else 0.0) + Delta(f, f.pair)];
      if positions[f.pair] <= 0.0 {
        protections := OtherPairs(protections, f.pair);
        newlyArmed := OtherPairs(newlyArmed, f.pair);
      }
    }

    method Arm(o: Order)
      modifies this
      ensures State() == ArmProtection(old(State()), o)
    {
      if o.side.Buy? && o.status.Filled? && (Given(o.stopLoss) || Given(o.takeProfit)) {
        newlyArmed := newlyArmed + [Protection(o, o.stopLoss, o.takeProfit)];
      }
    }

    /** Fill one queued order. */
    method Execute(o: Order, f: Fill)
      modifies this
      ensures State() == FillOrder(old(State()), o, f)
    {
      var filled := FilledOrder(o, f);
      orders := orders[o.id := filled];
      Track(f);
      Arm(filled);
    }

    /** Fill the market orders submitted after the last candle, at the open. */
    method FillMarketOrders(c: Candle) returns (fills: seq<Fill>)
      modifies this
      ensures Progress(State(), fills)
           == MarketPhase(cfg, Progress(old(State()).(marketQueue := []), []), old(marketQueue), c)
      ensures limitOpen == old(limitOpen)
    {
      fills := [];
      var market := marketQueue;
      marketQueue := [];
      ghost var start := Progress(State(), fills);
      for i := 0 to |market|
        invariant limitOpen == old(limitOpen)
        invariant MarketPhase(cfg, start, market, c) == MarketPhase(cfg, Progress(State(), fills), market[i..], c)
      {
        assert market[i..][1..] == market[i + 1..];
        var f := FillMarket(cfg, market[i], c);
        fills := fills + [f];
        Execute(market[i], f);
      }
    }

    /** Fill or expire every resting limit. */
    method FillLimitOrders(c: Candle, before: seq<Fill>) returns (fills: seq<Fill>)
      modifies this
      ensures Progress(State(), fills)
           == LimitPhase(cfg, Progress(old(State()).(limitOpen := []), before), old(limitOpen), c)
    {
      fills := before;
      var limits := limitOpen;
      limitOpen := [];
      ghost var start := Progress(State(), fills);
      for i := 0 to |limits|
        invariant LimitPhase(cfg, start, limits, c) == LimitPhase(cfg, Progress(State(), fills), limits[i..], c)
      {
        assert limits[i..][1..] == limits[i + 1..];
        var outcome := LimitOutcome(cfg, limits[i], c);
        if outcome.None? {
          var cancelled := limits[i].(status := Cancelled);
          orders := orders[cancelled.id := cancelled];
          expired := expired + [cancelled];
        } else {
          fills := fills + [outcome.value];
          Execute(limits[i], outcome.value);
        }
      }
    }

    /** Trigger the armed protections whose position is still open. */
    method SweepProtections(c: Candle, before: seq<Fill>) returns (fills: seq<Fill>, survivors: seq<Protection>)
      modifies this
      ensures Sweep(Progress(State(), fills), survivors)
           == ProtectionPhase(cfg, Sweep(Progress(old(State()), before), []), old(protections), c)
    {
      fills, survivors := before, [];
      var armed := protections;
      ghost var start := Sweep(Progress(State(), fills), []);
      for i := 0 to |armed|
        invariant ProtectionPhase(cfg, start, armed, c)
               == ProtectionPhase(cfg, Sweep(Progress(State(), fills), survivors), armed[i..], c)
      {
        assert armed[i..][1..] == armed[i + 1..];
        var p := armed[i];
        if PositionAt(State(), p.entry.pair) > 0.0 {
          var outcome := CheckProtection(cfg, State(), p, c);
          if outcome.None? {
            survivors := survivors + [p];
          } else {
            Fire(p, outcome.value, c);
            fills := fills + [outcome.value];
          }
        }
      }
    }

    /** Send the exit of a triggered protection and fill it. */
    method Fire(p: Protection, f: Fill, c: Candle)
      modifies this
      ensures State() == FireProtection(old(State()), p, f, c)
    {
      var exit := FilledOrder(ExitOrder(State(), p, c), f);
      orders := orders[exit.id := exit];
      newOrders := newOrders + [exit];
      protByExit := protByExit[exit.id := p];
      nextId := nextId + 1;
      Track(f);
    }

    method CandleStep(c: Candle) returns (fills: seq<Fill>)
      modifies this
      ensures Progress(State(), fills) == OnCandle(cfg, old(State()), c)
    {
      orders := map id | id in orders && !orders[id].status.Filled? && !orders[id].status.Cancelled? :: orders[id];
      fills := FillMarketOrders(c);
      fills := FillLimitOrders(c, fills);
      var survivors;
      fills, survivors := SweepProtections(c, fills);
      protections := survivors + newlyArmed;
      newlyArmed := [];
    }

    method Void(f: Fill)
      modifies this
      ensures State() == VoidFill(old(State()), f)
    {
      positions := positions[f.pair := (if f.pair in positions then positions[f.pair] else 0.0) - Delta(f, f.pair)];
      assert State() == Untrack(old(State()), f);
      if f.orderId in orders {
        orders := orders[f.orderId :=
                           orders[f.orderId].(status := Rejected, filledPrice := None, filledTs := None, fee := 0.0)];
        protections := OtherOrders(protections, f.orderId);
        newlyArmed := OtherOrders(newlyArmed, f.orderId);
      }
      assert State() == RejectOrder(Untrack(old(State()), f), f.orderId);
      if f.orderId in protByExit {
        protections := protections + [protByExit[f.orderId]];
        protByExit := protByExit - {f.orderId};
      }
    }

    method CloseOut(pair: Pair, size: real, c: Candle) returns (f: Fill)
      modifies this
      ensures (State(), f) == Liquidate(cfg, old(State()), pair, size, c)
    {
      var o := LiquidationOrder(State(), pair, size, c);
      f := MakeFill(o, c.ts, Slipped(cfg, c.close, o.side), cfg.taker, Taker);
      var filled := FilledOrder(o, f);
      orders := orders[o.id := filled];
      newOrders := newOrders + [filled];
      nextId := nextId + 1;
      Track(f);
    }
  }
}
