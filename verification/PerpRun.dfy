/** A whole perp run: venue fills, signed ledger, rollback, funding, the equity rail, risk and
    submission, in that order (kaupo/core/engine.py). */
module PerpRun {
  import opened Domain
  import opened Accounting
  import opened PaperVenue
  import Risk = RiskManager
  import E = Engine
  import P = PerpEngine

  datatype PerpConfig = PerpConfig(engine: E.EngineConfig, takerRate: real)

  /** The engine's state and the last funding event it charged. */
  datatype PerpState = PerpState(engine: E.EngineState, lastFunding: Option<int>)

  /** What a candle brings, with the funding series known at its close and the id a forced close
      would get. */
  datatype PerpInput = PerpInput(input: E.Input, points: seq<P.Point>, id: OrderId)

  // ----- no order and no fill is empty -----

  ghost predicate PositiveOrders(queue: seq<Order>) {
    forall o :: o in queue ==> o.size > 0.0
  }

  ghost predicate PositiveEntries(ps: seq<Protection>) {
    forall p :: p in ps ==> p.entry.size > 0.0
  }

  ghost predicate Positive(v: VenueState) {
    && PositiveOrders(v.marketQueue) && PositiveOrders(v.limitOpen)
    && PositiveEntries(v.protections) && PositiveEntries(v.newlyArmed)
    && (forall id :: id in v.protByExit ==> v.protByExit[id].entry.size > 0.0)
  }

  ghost predicate PositiveFills(fills: seq<Fill>) {
    forall f :: f in fills ==> f.size > 0.0
  }

  ghost predicate PositiveProgress(pr: Progress) {
    Positive(pr.venue) && PositiveFills(pr.fills)
  }

  lemma TrackPositive(v: VenueState, f: Fill)
    requires Positive(v)
    ensures Positive(TrackPosition(v, f))
  {
    forall p ensures p in OtherPairs(v.protections, f.pair) ==> p in v.protections {
      OtherPairsAre(v.protections, f.pair, p);
    }
    forall p ensures p in OtherPairs(v.newlyArmed, f.pair) ==> p in v.newlyArmed {
      OtherPairsAre(v.newlyArmed, f.pair, p);
    }
  }

  lemma FillPositive(pr: Progress, o: Order, f: Fill)
    requires PositiveProgress(pr) && o.size > 0.0 && f.size == o.size
    ensures PositiveProgress(Progress(FillOrder(pr.venue, o, f), pr.fills + [f]))
  {
    TrackPositive(pr.venue.(orders := pr.venue.orders[o.id := FilledOrder(o, f)]), f);
  }

  lemma {:induction false} MarketPositive(cfg: VenueConfig, pr: Progress, queue: seq<Order>, c: Candle)
    requires PositiveProgress(pr) && PositiveOrders(queue)
    ensures PositiveProgress(MarketPhase(cfg, pr, queue, c))
    decreases |queue|
  {
    if queue != [] {
      assert queue[0] in queue;
      FillPositive(pr, queue[0], FillMarket(cfg, queue[0], c));
      MarketPositive(cfg, MarketStep(cfg, pr, queue[0], c), queue[1..], c);
    }
  }

  lemma {:induction false} LimitPositive(cfg: VenueConfig, pr: Progress, queue: seq<Order>, c: Candle)
    requires PositiveProgress(pr) && PositiveOrders(queue)
    ensures PositiveProgress(LimitPhase(cfg, pr, queue, c))
    decreases |queue|
  {
    if queue != [] {
      assert queue[0] in queue;
      if LimitOutcome(cfg, queue[0], c).Some? {
        FillPositive(pr, queue[0], LimitOutcome(cfg, queue[0], c).value);
      }
      LimitPositive(cfg, LimitStep(cfg, pr, queue[0], c), queue[1..], c);
    }
  }

  lemma {:induction false} SweepPositive(cfg: VenueConfig, s: Sweep, ps: seq<Protection>, c: Candle)
    requires PositiveProgress(s.progress) && PositiveEntries(s.survivors) && PositiveEntries(ps)
    ensures var r := ProtectionPhase(cfg, s, ps, c); PositiveProgress(r.progress) && PositiveEntries(r.survivors)
    decreases |ps|
  {
    if ps != [] {
      assert ps[0] in ps;
      SweepStepPositive(cfg, s, ps[0], c);
      SweepPositive(cfg, ProtectionStep(cfg, s, ps[0], c), ps[1..], c);
    }
  }

  lemma SweepStepPositive(cfg: VenueConfig, s: Sweep, p: Protection, c: Candle)
    requires PositiveProgress(s.progress) && PositiveEntries(s.survivors) && p.entry.size > 0.0
    ensures var r := ProtectionStep(cfg, s, p, c); PositiveProgress(r.progress) && PositiveEntries(r.survivors)
  {
    var v := s.progress.venue;
    if PositionAt(v, p.entry.pair) > 0.0 && CheckProtection(cfg, v, p, c).Some? {
      var f := CheckProtection(cfg, v, p, c).value;
      var exit := FilledOrder(ExitOrder(v, p, c), f);
      TrackPositive(v.(orders := v.orders[exit.id := exit], newOrders := v.newOrders + [exit],
                       protByExit := v.protByExit[exit.id := p], nextId := v.nextId + 1), f);
    }
  }

  /** A candle of positive orders hands out positive fills. */
  lemma CandlePositive(cfg: VenueConfig, v: VenueState, c: Candle)
    requires Positive(v)
    ensures PositiveProgress(OnCandle(cfg, v, c))
  {
    var start := Progress(PruneOrders(v).(marketQueue := []), []);
    MarketPositive(cfg, start, v.marketQueue, c);
    var market := MarketPhase(cfg, start, v.marketQueue, c);
    LimitPositive(cfg, market.(venue := market.venue.(limitOpen := [])), v.limitOpen, c);
    var own := OwnPhase(cfg, v, c);
    SweepPositive(cfg, Sweep(own, []), own.venue.protections, c);
  }

  // ----- the fill loop -----

  /** Covering buys realize PnL too. */
  function SettleOne(cfg: Risk.RiskConfig, s: E.Settlement, f: Fill): E.Settlement
    requires f.size > 0.0
  {
    match ApplyPerp(s.books, f, false)
    case Failure(_) => s.(venue := VoidFill(s.venue, f), accepted := s.accepted + [false])
    case Success(a) =>
      var closes := f.side.Sell? || a.realized != 0.0;
      E.Settlement(s.venue, a.books, if closes then Risk.NotifyTradeResult(cfg, s.risk, a.realized) else s.risk,
                   s.accepted + [true])
  }

  function Settle(cfg: Risk.RiskConfig, s: E.Settlement, fills: seq<Fill>): E.Settlement
    requires PositiveFills(fills)
    decreases |fills|
  {
    if fills == [] then s
    else
      assert fills[0] in fills;
      Settle(cfg, SettleOne(cfg, s, fills[0]), fills[1..])
  }

  lemma VoidPositive(v: VenueState, f: Fill)
    requires Positive(v)
    ensures Positive(VoidFill(v, f))
  {
    VoidRestores(v, f);
    forall p ensures p in OtherOrders(v.newlyArmed, f.orderId) ==> p in v.newlyArmed {
      OtherOrdersAre(v.newlyArmed, f.orderId, p);
    }
  }

  /** Ledger minus venue grows by exactly the fills the loop consumed. */
  ghost predicate Moved(s: E.Settlement, t: E.Settlement, fills: seq<Fill>) {
    forall p :: PositionOf(t.books, p).size - PositionAt(t.venue, p)
             == PositionOf(s.books, p).size - PositionAt(s.venue, p) + NetDelta(fills, p)
  }

  lemma OneMoves(cfg: Risk.RiskConfig, s: E.Settlement, f: Fill)
    requires f.size > 0.0 && Positive(s.venue)
    ensures var t := SettleOne(cfg, s, f);
            Moved(s, t, [f]) && Positive(t.venue) && PaidIn(t.books) == PaidIn(s.books)
  {
    VoidPositive(s.venue, f);
    VoidRestores(s.venue, f);
    if ApplyPerp(s.books, f, false).Success? {
      SizeAfter(true, s.books, f, false);
      PerpKeepsIdentity(s.books, f, false);
    }
    forall p ensures NetDelta([f], p) == Delta(f, p) {
      assert [f][1..] == [];
    }
  }

  lemma {:induction false} LoopMoves(cfg: Risk.RiskConfig, s: E.Settlement, fills: seq<Fill>)
    requires PositiveFills(fills) && Positive(s.venue)
    ensures var t := Settle(cfg, s, fills);
            Moved(s, t, fills) && Positive(t.venue) && PaidIn(t.books) == PaidIn(s.books)
    decreases |fills|
  {
    if fills != [] {
      assert fills[0] in fills;
      OneMoves(cfg, s, fills[0]);
      LoopMoves(cfg, SettleOne(cfg, s, fills[0]), fills[1..]);
      forall p ensures NetDelta(fills, p) == NetDelta([fills[0]], p) + NetDelta(fills[1..], p) {
        NetDeltaAppend([fills[0]], fills[1..], p);
        assert [fills[0]] + fills[1..] == fills;
      }
    }
  }

  /** Venue and ledger, up to the end of the fill loop. */
  ghost function AfterFills(cfg: PerpConfig, s: E.EngineState, c: Candle): E.Settlement
    requires Positive(s.venue)
  {
    CandlePositive(cfg.engine.venue, s.venue, c);
    var pr := OnCandle(cfg.engine.venue, s.venue, c);
    Settle(cfg.engine.risk, E.Settlement(pr.venue.(newOrders := [], expired := []), s.books, s.risk, []), pr.fills)
  }

  /** The venue tracked its fills and the signed ledger took or refused each: the difference stays. */
  lemma AgreeAfterFills(cfg: PerpConfig, s: E.EngineState, c: Candle, opening: Books)
    requires Positive(s.venue) && E.Agree(s.venue, s.books, opening)
    ensures var t := AfterFills(cfg, s, c);
            E.Agree(t.venue, t.books, opening) && Positive(t.venue) && PaidIn(t.books) == PaidIn(s.books)
  {
    CandlePositive(cfg.engine.venue, s.venue, c);
    OnCandleTracksItsFills(cfg.engine.venue, s.venue, c);
    var pr := OnCandle(cfg.engine.venue, s.venue, c);
    var start := E.Settlement(pr.venue.(newOrders := [], expired := []), s.books, s.risk, []);
    LoopMoves(cfg.engine.risk, start, pr.fills);
    var t := AfterFills(cfg, s, c);
    forall p ensures PositionOf(t.books, p).size - PositionAt(t.venue, p) == PositionOf(opening, p).size {
      assert PositionOf(s.books, p).size - PositionAt(s.venue, p) == PositionOf(opening, p).size;
      assert PositionAt(start.venue, p) == PositionAt(s.venue, p) + NetDelta(pr.fills, p);
    }
  }

  // ----- funding -----

  lemma {:induction false} PaymentsOnly(events: seq<P.Point>, size: real, close: real)
    ensures forall e :: e in P.Payments(events, size, close) ==> e.Funding?
  {
    if events != [] {
      PaymentsOnly(events[..|events| - 1], size, close);
    }
  }

  /** Funding moves cash only. */
  lemma {:induction false} FundingKeepsPositions(b: Books, events: seq<Event>)
    requires forall e :: e in events ==> e.Funding?
    ensures Processable(true, events)
    ensures Replay(true, b, events).positions == b.positions
    ensures Replay(true, b, events).cash == b.cash + TotalFunding(events)
    decreases |events|
  {
    if events != [] {
      assert events[0] in events;
      FundingKeepsPositions(Process(true, b, events[0]), events[1..]);
    }
  }

  /** What the candle's funding pays in all. */
  ghost function FundingPaid(cfg: PerpConfig, b: Books, last: Option<int>, points: seq<P.Point>, c: Candle): real {
    TotalFunding(P.FundingEvents(b, cfg.engine.pair, points, last, c))
  }

  /** The books after the candle's funding. */
  ghost function Funded(cfg: PerpConfig, b: Books, last: Option<int>, points: seq<P.Point>, c: Candle): (r: Books)
    ensures r.positions == b.positions && PaidIn(r) == PaidIn(b) + FundingPaid(cfg, b, last, points, c)
  {
    var events := P.FundingEvents(b, cfg.engine.pair, points, last, c);
    PaymentsOnly(P.NewEvents(points, last, c), PositionOf(b, cfg.engine.pair).size, c.close);
    FundingKeepsPositions(b, events);
    AccountingIdentity(true, b, events);
    Replay(true, b, events)
  }

  // ----- one candle -----

  /** The rail: a run whose equity is gone is closed out and halted. */
  predicate Liquidated(s: E.EngineState) {
    s.risk.halted && s.risk.haltReason == P.LIQUIDATED
  }

  ghost function ClosedOut(cfg: PerpConfig, b: Books, id: OrderId, c: Candle): (r: Books)
    ensures PositionOf(r, cfg.engine.pair).size == 0.0 && PaidIn(r) == PaidIn(b)
  {
    var events := P.LiquidationEvents(b, cfg.engine.pair, id, c, cfg.takerRate);
    CloseOutProcesses(cfg, b, id, c);
    Replay(true, b, events)
  }

  lemma {:induction false} CloseOutProcesses(cfg: PerpConfig, b: Books, id: OrderId, c: Candle)
    ensures var events := P.LiquidationEvents(b, cfg.engine.pair, id, c, cfg.takerRate);
            && Processable(true, events) && PaidIn(Replay(true, b, events)) == PaidIn(b)
            && PositionOf(Replay(true, b, events), cfg.engine.pair).size == 0.0
  {
    var pair := cfg.engine.pair;
    var events := P.LiquidationEvents(b, pair, id, c, cfg.takerRate);
    if events != [] {
      P.LiquidationFlattens(b, pair, id, c, cfg.takerRate);
      assert events[1..] == [];
      AccountingIdentity(true, b, events);
    }
  }

  /** Risk checks, operator control, then the strategy's approved intents. */
  ghost function Decide(cfg: PerpConfig, t: E.Settlement, killed: bool, i: E.Input): E.EngineState
    requires cfg.engine.risk.costRate != -1.0
  {
    var st := E.RiskStateAt(cfg.engine, t.books, i.candle);
    var risk := Risk.OnCandle(cfg.engine.risk, t.risk, st.day, Risk.FloorEquity(st));
    if risk.halted || i.control.Pause? then E.EngineState(t.venue, t.books, risk, killed)
    else if i.control.Kill? then E.EngineState(t.venue, t.books, risk, true)
    else
      var batch := Risk.Assess(cfg.engine.risk, risk.cooldown, i.intents, st);
      E.EngineState(E.SubmitAll(t.venue, batch, i.candle.ts), t.books, risk, killed)
  }

  ghost function Step(cfg: PerpConfig, s: PerpState, i: PerpInput): PerpState
    requires cfg.engine.risk.costRate != -1.0 && Positive(s.engine.venue)
  {
    var c := i.input.candle;
    var t := AfterFills(cfg, s.engine, c);
    var books := Funded(cfg, t.books, s.lastFunding, i.points, c);
    var last := P.Advanced(s.lastFunding, P.NewEvents(i.points, s.lastFunding, c));
    if EquityOf(books, map[cfg.engine.pair := c.close]) <= 0.0 then
      PerpState(E.EngineState(t.venue, ClosedOut(cfg, books, i.id, c),
                              Risk.Operate(cfg.engine.risk, t.risk, Risk.EngineHalt(P.LIQUIDATED)), s.engine.killed),
                last)
    else PerpState(Decide(cfg, t.(books := books), s.engine.killed, i.input), last)
  }

  // ----- what every run keeps -----

  /** Every order waits with a positive size, and venue and signed ledger differ on every pair by
      the opening position exactly; only a liquidated run may not agree, and it holds nothing. */
  ghost predicate Invariant(cfg: PerpConfig, s: PerpState, opening: Books) {
    && Positive(s.engine.venue)
    && (E.Agree(s.engine.venue, s.engine.books, opening)
        || (Liquidated(s.engine) && PositionOf(s.engine.books, cfg.engine.pair).size == 0.0))
  }

  ghost predicate ValidInputs(inputs: seq<PerpInput>) {
    forall i :: i in inputs ==> Risk.ValidIntents(i.input.intents)
  }

  lemma ApprovedPositive(cfg: Risk.RiskConfig, cooldown: int, i: OrderIntent, st: Risk.RiskState,
                         resulting: map<Pair, real>)
    requires ValidIntent(i) && !Risk.AssessPerpOne(cfg, cooldown, i, st, resulting).decision.Refused?
    ensures Risk.AssessPerpOne(cfg, cooldown, i, st, resulting).size > 0.0
  {}

  lemma {:induction false} BatchPositive(cfg: Risk.RiskConfig, cooldown: int, intents: seq<OrderIntent>,
                                         st: Risk.RiskState, resulting: map<Pair, real>)
    requires Risk.ValidIntents(intents)
    ensures forall a :: a in Risk.AssessPerpFrom(cfg, cooldown, intents, st, resulting) && !a.decision.Refused?
              ==> a.size > 0.0
    decreases |intents|
  {
    if intents != [] {
      assert intents[0] in intents;
      var a := Risk.AssessPerpOne(cfg, cooldown, intents[0], st, resulting);
      if !a.decision.Refused? {
        ApprovedPositive(cfg, cooldown, intents[0], st, resulting);
      }
      BatchPositive(cfg, cooldown, intents[1..], st, Risk.FoldPerp(resulting, a));
    }
  }

  lemma {:induction false} SubmitPositive(v: VenueState, batch: seq<Risk.Assessment>, ts: int)
    requires Positive(v) && forall a :: a in batch && !a.decision.Refused? ==> a.size > 0.0
    ensures Positive(E.SubmitAll(v, batch, ts)) && E.SubmitAll(v, batch, ts).positions == v.positions
    decreases |batch|
  {
    if batch != [] {
      assert batch[0] in batch;
      if batch[0].decision.Refused? {
        SubmitPositive(v, batch[1..], ts);
      } else {
        SubmitPositive(Submit(v, E.OrderFrom(batch[0], ts, v.nextId)).(nextId := v.nextId + 1), batch[1..], ts);
      }
    }
  }

  lemma DecideKeeps(cfg: PerpConfig, t: E.Settlement, killed: bool, i: E.Input)
    requires cfg.engine.risk.costRate != -1.0 && cfg.engine.risk.perp && Risk.ValidIntents(i.intents)
    requires Positive(t.venue)
    ensures var s := Decide(cfg, t, killed, i);
            Positive(s.venue) && s.books == t.books && s.venue.positions == t.venue.positions
  {
    var st := E.RiskStateAt(cfg.engine, t.books, i.candle);
    var risk := Risk.OnCandle(cfg.engine.risk, t.risk, st.day, Risk.FloorEquity(st));
    BatchPositive(cfg.engine.risk, risk.cooldown, i.intents, st, Risk.SizesOf(st));
    SubmitPositive(t.venue, Risk.Assess(cfg.engine.risk, risk.cooldown, i.intents, st), i.candle.ts);
  }

  /** What one candle of a run that goes on keeps, and what it does to the money paid in. */
  lemma StepKeeps(cfg: PerpConfig, s: PerpState, i: PerpInput, opening: Books)
    requires cfg.engine.risk.costRate != -1.0 && cfg.engine.risk.perp && Risk.ValidIntents(i.input.intents)
    requires Invariant(cfg, s, opening) && !s.engine.risk.halted
    ensures Invariant(cfg, Step(cfg, s, i), opening)
    ensures PaidIn(Step(cfg, s, i).engine.books) == PaidIn(s.engine.books) + StepFunding(cfg, s, i)
  {
    var c := i.input.candle;
    var t := AfterFills(cfg, s.engine, c);
    AgreeAfterFills(cfg, s.engine, c, opening);
    var books := Funded(cfg, t.books, s.lastFunding, i.points, c);
    SamePositions(t.venue, t.books, books, opening);
    DecideKeeps(cfg, t.(books := books), s.engine.killed, i.input);
    var next := Step(cfg, s, i).engine;
    if EquityOf(books, map[cfg.engine.pair := c.close]) > 0.0 {
      SameTracking(t.venue, next.venue, books, opening);
    }
  }

  lemma SamePositions(v: VenueState, b: Books, after: Books, opening: Books)
    requires E.Agree(v, b, opening) && after.positions == b.positions
    ensures E.Agree(v, after, opening)
  {
    forall p ensures PositionOf(after, p).size - PositionAt(v, p) == PositionOf(opening, p).size {
      assert PositionOf(b, p).size - PositionAt(v, p) == PositionOf(opening, p).size;
    }
  }

  lemma SameTracking(v: VenueState, w: VenueState, b: Books, opening: Books)
    requires E.Agree(v, b, opening) && w.positions == v.positions
    ensures E.Agree(w, b, opening)
  {
    forall p ensures PositionOf(b, p).size - PositionAt(w, p) == PositionOf(opening, p).size {
      assert PositionOf(b, p).size - PositionAt(v, p) == PositionOf(opening, p).size;
    }
  }

  /** The funding a candle pays. */
  ghost function StepFunding(cfg: PerpConfig, s: PerpState, i: PerpInput): real
    requires Positive(s.engine.venue)
  {
    FundingPaid(cfg, AfterFills(cfg, s.engine, i.input.candle).books, s.lastFunding, i.points, i.input.candle)
  }

  lemma StepPositive(cfg: PerpConfig, s: PerpState, i: PerpInput)
    requires cfg.engine.risk.costRate != -1.0 && cfg.engine.risk.perp && Risk.ValidIntents(i.input.intents)
    requires Positive(s.engine.venue)
    ensures Positive(Step(cfg, s, i).engine.venue)
  {
    var c := i.input.candle;
    CandlePositive(cfg.engine.venue, s.engine.venue, c);
    var pr := OnCandle(cfg.engine.venue, s.engine.venue, c);
    var start := E.Settlement(pr.venue.(newOrders := [], expired := []), s.engine.books, s.engine.risk, []);
    LoopMoves(cfg.engine.risk, start, pr.fills);
    var t := AfterFills(cfg, s.engine, c);
    var books := Funded(cfg, t.books, s.lastFunding, i.points, c);
    DecideKeeps(cfg, t.(books := books), s.engine.killed, i.input);
  }

  /** A run stops taking candles once it is halted or killed. */
  ghost function Run(cfg: PerpConfig, s: PerpState, inputs: seq<PerpInput>): (r: PerpState)
    requires cfg.engine.risk.costRate != -1.0 && cfg.engine.risk.perp && ValidInputs(inputs)
    requires Positive(s.engine.venue)
    ensures Positive(r.engine.venue)
    decreases |inputs|
  {
    if inputs == [] || s.engine.killed || s.engine.risk.halted then s
    else
      assert inputs[0] in inputs;
      StepPositive(cfg, s, inputs[0]);
      Run(cfg, Step(cfg, s, inputs[0]), inputs[1..])
  }

  /** The funding a whole run pays. */
  ghost function RunFunding(cfg: PerpConfig, s: PerpState, inputs: seq<PerpInput>): real
    requires cfg.engine.risk.costRate != -1.0 && cfg.engine.risk.perp && ValidInputs(inputs)
    requires Positive(s.engine.venue)
    decreases |inputs|
  {
    if inputs == [] || s.engine.killed || s.engine.risk.halted then 0.0
    else
      assert inputs[0] in inputs;
      StepPositive(cfg, s, inputs[0]);
      StepFunding(cfg, s, inputs[0]) + RunFunding(cfg, Step(cfg, s, inputs[0]), inputs[1..])
  }

  lemma {:induction false} RunKeeps(cfg: PerpConfig, s: PerpState, inputs: seq<PerpInput>, opening: Books)
    requires cfg.engine.risk.costRate != -1.0 && cfg.engine.risk.perp && ValidInputs(inputs)
    requires Invariant(cfg, s, opening)
    ensures Invariant(cfg, Run(cfg, s, inputs), opening)
    ensures PaidIn(Run(cfg, s, inputs).engine.books) == PaidIn(s.engine.books) + RunFunding(cfg, s, inputs)
    decreases |inputs|
  {
    if inputs != [] && !s.engine.killed && !s.engine.risk.halted {
      assert inputs[0] in inputs;
      StepKeeps(cfg, s, inputs[0], opening);
      RunKeeps(cfg, Step(cfg, s, inputs[0]), inputs[1..], opening);
    }
  }

  function Start(opening: Books, risk: Risk.Manager): PerpState {
    PerpState(E.Start(opening, risk), None)
  }

  /** Over every perp run, whatever the market, the funding, the operator and the strategy do: venue
      and signed ledger differ on every pair by the opening position exactly, until a liquidation,
      which leaves no position; and cash plus cost basis minus realized PnL has moved by the funding
      alone, liquidation included. */
  lemma {:induction false} EveryPerpRunAgrees(cfg: PerpConfig, opening: Books, risk: Risk.Manager,
                                              inputs: seq<PerpInput>)
    requires cfg.engine.risk.costRate != -1.0 && cfg.engine.risk.perp && ValidInputs(inputs)
    ensures var start := Start(opening, risk);
            var end := Run(cfg, start, inputs);
            && (E.Agree(end.engine.venue, end.engine.books, opening)
                || (Liquidated(end.engine) && PositionOf(end.engine.books, cfg.engine.pair).size == 0.0))
            && PaidIn(end.engine.books) == PaidIn(opening) + RunFunding(cfg, start, inputs)
  {
    RunKeeps(cfg, Start(opening, risk), inputs, opening);
  }

  /** And at every candle of a run that goes on, right after the fill loop, they agree. */
  lemma {:induction false} EveryPerpLoopAgrees(cfg: PerpConfig, opening: Books, risk: Risk.Manager,
                                               inputs: seq<PerpInput>, c: Candle)
    requires cfg.engine.risk.costRate != -1.0 && cfg.engine.risk.perp && ValidInputs(inputs)
    requires !Run(cfg, Start(opening, risk), inputs).engine.risk.halted
    ensures var t := AfterFills(cfg, Run(cfg, Start(opening, risk), inputs).engine, c);
            E.Agree(t.venue, t.books, opening)
  {
    RunKeeps(cfg, Start(opening, risk), inputs, opening);
    AgreeAfterFills(cfg, Run(cfg, Start(opening, risk), inputs).engine, c, opening);
  }
}
