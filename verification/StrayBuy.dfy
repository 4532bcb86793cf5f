/** A single-pair run whose strategy buys another pair: the run in which the daily-loss floor is not
    min(opening cash + realized PnL, equity) (kaupo/core/engine.py, kaupo/risk/manager.py). */
module StrayBuy {
  import opened Domain
  import opened Accounting
  import opened PaperVenue
  import opened Engine
  import Risk = RiskManager
  import Sums

  const OWN := Pair("BTC", "EUR")
  const OTHER := Pair("ETH", "EUR")

  const FREE := VenueConfig(0.0, 0.0, 0.0, AsMaker)
  const LIMITS := Risk.RiskConfig(1000.0, 1000.0, 1000.0, 1.0, 3, 1, false, 0.0)
  const CFG := EngineConfig(OWN, FREE, LIMITS)

  const QUIET := Candle(OWN, 0, 60, 100.0, 100.0, 100.0, 100.0)
  const RISING := Candle(OWN, 60, 60, 100.0, 150.0, 100.0, 150.0)

  const BUY := OrderIntent(OWN, Buy, 0.2, None, None, None)
  const STRAY := OrderIntent(OTHER, Buy, 0.5, Some(100.0), None, None)
  const INPUT := Input(QUIET, Proceed, [BUY, STRAY])

  const FRESH := Books(100.0, map[], 0.0)

  const APPROVED := [Risk.Assessment(BUY, Risk.Approved, 0.2), Risk.Assessment(STRAY, Risk.Approved, 0.5)]

  const MARKET_ORDER := Order(Local(0), OWN, Buy, Market, 0.2, None, None, None, 0, Open, None, None, 0.0)
  const LIMIT_ORDER := Order(Local(1), OTHER, Buy, Limit, 0.5, Some(100.0), None, None, 0, Open, None, None, 0.0)

  const OWN_FILL := Fill(Local(0), OWN, Buy, 60, 100.0, 0.2, 0.0, Some(Taker))
  const STRAY_FILL := Fill(Local(1), OTHER, Buy, 60, 100.0, 0.5, 0.0, Some(Maker))

  const HELD := Books(30.0, map[OWN := Position(0.2, 100.0, Some(60)), OTHER := Position(0.5, 100.0, Some(60))], 0.0)

  lemma SizedInFull()
    ensures Risk.SizeBuy(LIMITS, BUY, 100.0, 100.0) == Risk.Assessment(BUY, Risk.Approved, 0.2)
    ensures Risk.SizeBuy(LIMITS, STRAY, 100.0, 80.0) == Risk.Assessment(STRAY, Risk.Approved, 0.5)
  {}

  lemma FlatIsWorthNothing(price: real)
    ensures Worth(FLAT, price) == 0.0
  {}

  lemma RoomIsCash(added: real, cash: real)
    requires added >= 0.0 && cash + added <= 1000.0
    ensures Risk.Room(LIMITS, 0.0, 0.0, added, cash) == cash
  {
    assert Risk.SpendableNow(LIMITS, cash) == cash;
  }

  /** Nothing is held and the pair was not bought yet: only the cash limits a buy. */
  lemma BudgetIsCash(i: OrderIntent, st: Risk.RiskState, b: Risk.Batch)
    requires Risk.PositionIn(st, i.pair) == FLAT && Risk.Gross(st) == 0.0 && Risk.Get(b.added, i.pair) == 0.0
    requires Sums.Sum(b.added) >= 0.0 && b.cashLeft + Sums.Sum(b.added) <= 1000.0
    ensures Risk.Budget(LIMITS, i, st, b) == b.cashLeft
  {
    FlatIsWorthNothing(Risk.PriceFor(i, st));
    RoomIsCash(Sums.Sum(b.added), b.cashLeft);
  }

  lemma AssessedBuy(i: OrderIntent, st: Risk.RiskState, b: Risk.Batch, price: real, budget: real)
    requires i.side.Buy? && Risk.PriceFor(i, st) == price > 0.0 && Risk.Budget(LIMITS, i, st, b) == budget
    ensures Risk.AssessOne(LIMITS, 0, i, st, b) == Risk.SizeBuy(LIMITS, i, price, budget)
  {}

  lemma FirstApproved(st: Risk.RiskState, b: Risk.Batch)
    requires Risk.PositionIn(st, OWN) == FLAT && Risk.Get(st.prices, OWN) == 100.0 && Risk.Gross(st) == 0.0
    requires b.cashLeft == 100.0 && b.added == map[]
    ensures Risk.AssessOne(LIMITS, 0, BUY, st, b) == Risk.Assessment(BUY, Risk.Approved, 0.2)
  {
    BudgetIsCash(BUY, st, b);
    AssessedBuy(BUY, st, b, 100.0, 100.0);
    SizedInFull();
  }

  lemma StrayApproved(st: Risk.RiskState, b: Risk.Batch)
    requires Risk.PositionIn(st, OTHER) == FLAT && Risk.Gross(st) == 0.0
    requires b.cashLeft == 80.0 && b.added == map[OWN := 20.0]
    ensures Risk.AssessOne(LIMITS, 0, STRAY, st, b) == Risk.Assessment(STRAY, Risk.Approved, 0.5)
  {
    Sums.SumSingleton(OWN, 20.0);
    BudgetIsCash(STRAY, st, b);
    AssessedBuy(STRAY, st, b, 100.0, 80.0);
    SizedInFull();
  }

  lemma {:induction false} TwoAssessed(st: Risk.RiskState, b: Risk.Batch, i: OrderIntent, j: OrderIntent)
    ensures var a := Risk.AssessOne(LIMITS, 0, i, st, b);
            Risk.AssessFrom(LIMITS, 0, [i, j], st, b) == [a, Risk.AssessOne(LIMITS, 0, j, st, Risk.Fold(b, a, st))]
  {
    assert [i, j][1..] == [j] && [j][1..] == [];
    var b' := Risk.Fold(b, Risk.AssessOne(LIMITS, 0, i, st, b), st);
    assert Risk.AssessFrom(LIMITS, 0, [j], st, b') == [Risk.AssessOne(LIMITS, 0, j, st, b')];
  }

  /** Risk judges the stray limit at its own price and approves both buys in full. */
  lemma BothApproved(st: Risk.RiskState)
    requires st == RiskStateAt(CFG, FRESH, QUIET)
    ensures Risk.AssessSpot(LIMITS, 0, [BUY, STRAY], st) == APPROVED
  {
    NothingAtRisk(st);
    var b := Risk.Batch(100.0, map[], map[]);
    FirstApproved(st, b);
    var b' := Risk.Fold(b, Risk.Assessment(BUY, Risk.Approved, 0.2), st);
    AfterFirst(st, b);
    StrayApproved(st, b');
    TwoAssessed(st, b, BUY, STRAY);
  }

  lemma AfterFirst(st: Risk.RiskState, b: Risk.Batch)
    requires Risk.Get(st.prices, OWN) == 100.0 && b == Risk.Batch(100.0, map[], map[])
    ensures Risk.Fold(b, Risk.Assessment(BUY, Risk.Approved, 0.2), st) == Risk.Batch(80.0, map[OWN := 20.0], map[])
  {
    assert map[][OWN := 20.0] == map[OWN := 20.0];
  }

  lemma NothingAtRisk(st: Risk.RiskState)
    requires st == RiskStateAt(CFG, FRESH, QUIET)
    ensures Risk.Gross(st) == 0.0 && Risk.FloorEquity(st) == 100.0
  {
    assert (map p | p in st.positions :: Worth(st.positions[p], Risk.Get(st.prices, p))) == map[OWN := 0.0];
    Sums.SumSingleton(OWN, 0.0);
    FloorIsPairFloor(CFG, FRESH, QUIET);
  }

  /** Both orders are with the venue, and nothing else is. */
  predicate Waiting(v: VenueState) {
    && v.marketQueue == [MARKET_ORDER] && v.limitOpen == [LIMIT_ORDER]
    && v.protections == [] && v.newlyArmed == [] && v.positions == map[]
  }

  lemma {:induction false} OneInput(s: EngineState, i: Input)
    requires !s.killed && !s.risk.halted
    ensures Run(CFG, s, [i]) == Step(CFG, s, i)
  {
    assert [i][1..] == [];
    var next := Step(CFG, s, i);
    assert Run(CFG, next, []) == next;
  }

  /** The first candle leaves both orders with the venue. */
  lemma BothSubmitted()
    ensures var s := Run(CFG, Start(FRESH, Risk.FRESH), [INPUT]);
            Waiting(s.venue) && s.books == FRESH
  {
    var s := Start(FRESH, Risk.FRESH);
    OneInput(s, INPUT);
    IdleCandle();
    Decided(Settlement(s.venue, FRESH, Risk.FRESH, []));
  }

  lemma Decided(t: Settlement)
    requires t.venue == Start(FRESH, Risk.FRESH).venue && t.books == FRESH && t.risk == Risk.FRESH
    ensures Decide(CFG, t, false, INPUT).books == FRESH && Waiting(Decide(CFG, t, false, INPUT).venue)
  {
    var st := RiskStateAt(CFG, FRESH, QUIET);
    NothingAtRisk(st);
    var risk := Risk.OnCandle(LIMITS, Risk.FRESH, st.day, 100.0);
    assert !risk.halted && risk.cooldown == 0;
    BothApproved(st);
    TwoOrders(t.venue);
    assert Decide(CFG, t, false, INPUT) == EngineState(SubmitAll(t.venue, APPROVED, 0), FRESH, risk, false);
  }

  lemma IdleCandle()
    ensures var s := Start(FRESH, Risk.FRESH);
            AfterFills(CFG, s, QUIET) == Settlement(s.venue, FRESH, Risk.FRESH, [])
  {
    var v := Start(FRESH, Risk.FRESH).venue;
    assert PruneOrders(v).orders == map[];
    assert OnCandle(FREE, v, QUIET).venue.(newOrders := [], expired := []) == v;
  }

  lemma {:induction false} TwoOrders(v: VenueState)
    requires v == Start(FRESH, Risk.FRESH).venue
    ensures Waiting(SubmitAll(v, APPROVED, 0))
  {
    var a, b := APPROVED[0], APPROVED[1];
    assert OrderFrom(a, 0, 0) == MARKET_ORDER && OrderFrom(b, 0, 1) == LIMIT_ORDER;
    assert APPROVED[1..] == [b] && [b][1..] == [];
    var v' := Submit(v, MARKET_ORDER).(nextId := 1);
    assert SubmitAll(v, APPROVED, 0) == SubmitAll(v', [b], 0);
    assert SubmitAll(v', [b], 0) == SubmitAll(Submit(v', LIMIT_ORDER).(nextId := 2), [], 0);
  }

  lemma {:induction false} OneMarketOrder(pr: Progress, o: Order, c: Candle)
    ensures MarketPhase(FREE, pr, [o], c) == MarketStep(FREE, pr, o, c)
  {
    assert [o][1..] == [];
    assert MarketPhase(FREE, MarketStep(FREE, pr, o, c), [], c) == MarketStep(FREE, pr, o, c);
  }

  lemma {:induction false} OneLimitOrder(pr: Progress, o: Order, c: Candle)
    ensures LimitPhase(FREE, pr, [o], c) == LimitStep(FREE, pr, o, c)
  {
    assert [o][1..] == [];
    assert LimitPhase(FREE, LimitStep(FREE, pr, o, c), [], c) == LimitStep(FREE, pr, o, c);
  }

  /** The second candle fills both, the stray one on the own pair's prices. */
  lemma BothFill(v: VenueState)
    requires Waiting(v)
    ensures OnCandle(FREE, v, RISING).fills == [OWN_FILL, STRAY_FILL]
  {
    var start := Progress(PruneOrders(v).(marketQueue := []), []);
    assert FillMarket(FREE, MARKET_ORDER, RISING) == OWN_FILL;
    assert LimitOutcome(FREE, LIMIT_ORDER, RISING) == Some(STRAY_FILL);
    OneMarketOrder(start, MARKET_ORDER, RISING);
    var market := MarketStep(FREE, start, MARKET_ORDER, RISING);
    assert market.fills == [OWN_FILL] && market.venue.protections == [] && market.venue.newlyArmed == [];
    var placed := market.(venue := market.venue.(limitOpen := []));
    OneLimitOrder(placed, LIMIT_ORDER, RISING);
    var own := OwnPhase(FREE, v, RISING);
    assert own == LimitStep(FREE, placed, LIMIT_ORDER, RISING);
    assert own.fills == [OWN_FILL, STRAY_FILL] && own.venue.protections == [];
  }

  lemma {:induction false} TwoFills(s: Settlement, f: Fill, g: Fill)
    ensures Settle(LIMITS, s, [f, g]) == SettleOne(LIMITS, SettleOne(LIMITS, s, f), g)
  {
    assert [f, g][1..] == [g] && [g][1..] == [];
    var next := SettleOne(LIMITS, SettleOne(LIMITS, s, f), g);
    assert Settle(LIMITS, next, []) == next;
  }

  lemma {:induction false} BothSettle(s: Settlement)
    requires s.books == FRESH
    ensures Settle(LIMITS, s, [OWN_FILL, STRAY_FILL]).books == HELD
  {
    TwoFills(s, OWN_FILL, STRAY_FILL);
    var first := SettleOne(LIMITS, s, OWN_FILL);
    assert first.books == Books(80.0, map[OWN := Position(0.2, 100.0, Some(60))], 0.0);
    assert BlendedEntry(FLAT, 0.5, 50.0) == 100.0;
    assert SettleOne(LIMITS, first, STRAY_FILL).books.positions == HELD.positions;
  }

  lemma FloorOfHeld()
    ensures Risk.FloorEquity(RiskStateAt(CFG, HELD, RISING)) == 50.0
    ensures EquityOf(HELD, map[OWN := 150.0]) == 60.0
  {
    FloorIsPairFloor(CFG, HELD, RISING);
    OnlyPairValue(CFG, HELD, RISING);
    assert PositionOf(HELD, OWN) == Position(0.2, 100.0, Some(60));
  }

  lemma BooksHeld()
    ensures AfterFills(CFG, Run(CFG, Start(FRESH, Risk.FRESH), [INPUT]), RISING).books == HELD
  {
    BothSubmitted();
    var s := Run(CFG, Start(FRESH, Risk.FRESH), [INPUT]);
    BothFill(s.venue);
    var pr := OnCandle(FREE, s.venue, RISING);
    BothSettle(Settlement(pr.venue.(newOrders := [], expired := []), s.books, s.risk, []));
  }

  lemma Admissible()
    ensures FairFees(FREE) && ValidInputs([INPUT]) && ValidCandle(RISING)
  {
    forall i | i in [INPUT] ensures ValidInput(i) {
      assert i == INPUT;
    }
  }

  /** With the own position in profit and a stray buy on the books the floor is 50, below both
      opening cash plus realized PnL, 100, and the equity, 60. */
  lemma StrayBuyMovesTheFloor()
    ensures FairFees(FREE) && ValidInputs([INPUT]) && ValidCandle(RISING)
    ensures var b := AfterFills(CFG, Run(CFG, Start(FRESH, Risk.FRESH), [INPUT]), RISING).books;
            && Risk.FloorEquity(RiskStateAt(CFG, b, RISING)) == 50.0
            && EquityOf(b, map[OWN := 150.0]) == 60.0 && 100.0 + b.realized == 100.0
            && !FloorIsExact(CFG, 100.0, b, RISING)
  {
    Admissible();
    BooksHeld();
    FloorOfHeld();
  }
}
