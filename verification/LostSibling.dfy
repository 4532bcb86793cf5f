/** A run in which a rejected exit costs a sibling its protection: a buy the ledger rejects inflates
    the tracked position, a stop sells all of it, and the ledger rejects that exit too
    (kaupo/venues/paper.py, kaupo/core/engine.py). */
module LostSibling {
  import opened Domain
  import opened Accounting
  import opened PaperVenue
  import opened Engine
  import Risk = RiskManager
  import Runs = StrayBuy
  import Sums

  const OWN := Runs.OWN
  const FREE := Runs.FREE
  const LIMITS := Runs.LIMITS
  const CFG := Runs.CFG

  const QUIET := Candle(OWN, 0, 60, 10.0, 10.0, 10.0, 10.0)
  const FLAT_AGAIN := Candle(OWN, 60, 60, 10.0, 10.0, 10.0, 10.0)
  const GAP := Candle(OWN, 120, 60, 15.0, 15.0, 4.5, 4.5)

  // two entries with stops at 5 and 4, then a buy the gap makes too dear and a sell of most of it
  const ENTRY := OrderIntent(OWN, Buy, 4.0, None, Some(5.0), None)
  const SIBLING := OrderIntent(OWN, Buy, 2.0, None, Some(4.0), None)
  const MORE := OrderIntent(OWN, Buy, 3.0, None, None, None)
  const EXIT := OrderIntent(OWN, Sell, 5.0, None, None, None)
  const INPUTS := [Input(QUIET, Proceed, [ENTRY, SIBLING]), Input(FLAT_AGAIN, Proceed, [MORE, EXIT])]

  const FRESH := Runs.FRESH

  function MarketOrder(n: nat, i: OrderIntent, ts: int): Order {
    Order(Local(n), OWN, i.side, Market, i.size, None, i.stopLoss, None, ts, Open, None, None, 0.0)
  }

  function MarketFill(n: nat, i: OrderIntent, ts: int, price: real): Fill {
    Fill(Local(n), OWN, i.side, ts, price, i.size, 0.0, Some(Taker))
  }

  function Filled(n: nat, i: OrderIntent, ts: int, at: int, price: real): Order {
    FilledOrder(MarketOrder(n, i, ts), MarketFill(n, i, at, price))
  }

  /** The stops of the two entries, once filled. */
  const STOP := Protection(Filled(0, ENTRY, 0, 60, 10.0), Some(5.0), None)
  const OTHER_STOP := Protection(Filled(1, SIBLING, 0, 60, 10.0), Some(4.0), None)

  const HELD := Books(40.0, map[OWN := Position(6.0, 10.0, Some(60))], 0.0)

  /** The exit of the first stop sells all that is tracked. */
  const STOPPED := Fill(Local(4), OWN, Sell, 120, 5.0, 4.0, 0.0, Some(Taker))

  // ----- what risk approves -----

  lemma SizedInFull(i: OrderIntent, budget: real)
    requires i == ENTRY || i == SIBLING || i == MORE
    requires i.size * 10.0 <= budget
    ensures Risk.SizeBuy(LIMITS, i, 10.0, budget) == Risk.Assessment(i, Risk.Approved, i.size)
  {
    assert budget / 10.0 >= i.size;
  }

  /** A buy that its budget covers is approved in full. */
  lemma BuyApproved(i: OrderIntent, st: Risk.RiskState, b: Risk.Batch, budget: real)
    requires (i == ENTRY || i == SIBLING || i == MORE) && Risk.PriceFor(i, st) == 10.0
    requires Risk.Budget(LIMITS, i, st, b) == budget && i.size * 10.0 <= budget
    ensures Risk.AssessOne(LIMITS, 0, i, st, b) == Approval(i)
  {
    Runs.AssessedBuy(i, st, b, 10.0, budget);
    SizedInFull(i, budget);
  }

  /** Far below the caps only the cash limits a buy. */
  lemma BudgetIsCash(i: OrderIntent, st: Risk.RiskState, b: Risk.Batch, held: real, added: real)
    requires i.pair == OWN && held == Risk.PairExposure(i, st) == Risk.Gross(st) && 0.0 <= held <= 100.0
    requires added == Risk.Get(b.added, OWN) == Sums.Sum(b.added) && 0.0 <= added <= 100.0 && b.cashLeft <= 100.0
    ensures Risk.Budget(LIMITS, i, st, b) == b.cashLeft
  {
    RoomIsCash(held, added, b.cashLeft);
  }

  lemma RoomIsCash(held: real, added: real, cash: real)
    requires 0.0 <= held <= 100.0 && 0.0 <= added <= 100.0 && cash <= 100.0
    ensures Risk.Room(LIMITS, held, added, held + added, cash) == cash
  {
    assert Risk.SpendableNow(LIMITS, cash) == cash;
  }

  function Approval(i: OrderIntent): Risk.Assessment {
    Risk.Assessment(i, Risk.Approved, i.size)
  }

  lemma FoldBuy(b: Risk.Batch, i: OrderIntent, st: Risk.RiskState)
    requires i == ENTRY || i == MORE
    requires Risk.PriceFor(i, st) == 10.0 && b.added == map[] && b.sold == map[]
    ensures var after := Risk.Fold(b, Approval(i), st);
            after.cashLeft == b.cashLeft - i.size * 10.0 && after.added == map[OWN := i.size * 10.0]
            && after.sold == map[]
  {
    assert map[][OWN := i.size * 10.0] == map[OWN := i.size * 10.0];
  }

  lemma EntriesApproved(st: Risk.RiskState)
    requires st == RiskStateAt(CFG, FRESH, QUIET)
    ensures Risk.AssessSpot(LIMITS, 0, [ENTRY, SIBLING], st) == [Approval(ENTRY), Approval(SIBLING)]
    ensures Risk.FloorEquity(st) == 100.0
  {
    WorthOf(FRESH, QUIET, 0.0);
    var b := Risk.Batch(100.0, map[], map[]);
    assert Sums.Sum(b.added) == 0.0;
    BudgetIsCash(ENTRY, st, b, 0.0, 0.0);
    BuyApproved(ENTRY, st, b, 100.0);
    FoldBuy(b, ENTRY, st);
    Sums.SumSingleton(OWN, 40.0);
    BudgetIsCash(SIBLING, st, Risk.Fold(b, Approval(ENTRY), st), 0.0, 40.0);
    BuyApproved(SIBLING, st, Risk.Fold(b, Approval(ENTRY), st), 60.0);
    Runs.TwoAssessed(st, b, ENTRY, SIBLING);
  }

  /** What risk sees of the own pair. */
  lemma WorthOf(b: Books, c: Candle, worth: real)
    requires worth == Worth(PositionOf(b, OWN), c.close)
    ensures Risk.Gross(RiskStateAt(CFG, b, c)) == worth
    ensures Risk.FloorEquity(RiskStateAt(CFG, b, c)) == b.cash + Risk.FloorValue(PositionOf(b, OWN), c.close)
  {
    OneWorth(RiskStateAt(CFG, b, c), PositionOf(b, OWN), c.close);
    FloorIsPairFloor(CFG, b, c);
  }

  lemma OneWorth(st: Risk.RiskState, pos: Position, price: real)
    requires st.positions == map[OWN := pos] && st.prices == map[OWN := price]
    ensures Risk.Gross(st) == Worth(pos, price)
  {
    var worths := map p | p in st.positions :: Worth(st.positions[p], Risk.Get(st.prices, p));
    assert worths.Keys == {OWN} && worths[OWN] == Worth(pos, price);
    assert worths == map[OWN := Worth(pos, price)];
    Sums.SumSingleton(OWN, Worth(pos, price));
  }

  lemma SellApproved(st: Risk.RiskState, b: Risk.Batch)
    requires Risk.Get(st.prices, OWN) == 10.0 && Risk.PositionIn(st, OWN).size == 6.0 && b.sold == map[]
    ensures Risk.AssessOne(LIMITS, 0, EXIT, st, b) == Approval(EXIT)
  {
    assert Risk.PriceFor(EXIT, st) == 10.0 && Risk.Get(b.sold, OWN) == 0.0;
  }

  lemma ChangesApproved(st: Risk.RiskState)
    requires st == RiskStateAt(CFG, HELD, FLAT_AGAIN)
    ensures Risk.AssessSpot(LIMITS, 0, [MORE, EXIT], st) == [Approval(MORE), Approval(EXIT)]
    ensures Risk.FloorEquity(st) == 100.0
  {
    WorthOf(HELD, FLAT_AGAIN, 60.0);
    var b := Risk.Batch(40.0, map[], map[]);
    assert Sums.Sum(b.added) == 0.0;
    BudgetIsCash(MORE, st, b, 60.0, 0.0);
    BuyApproved(MORE, st, b, 40.0);
    FoldBuy(b, MORE, st);
    SellApproved(st, Risk.Fold(b, Approval(MORE), st));
    Runs.TwoAssessed(st, b, MORE, EXIT);
  }

  // ----- the venue -----

  /** Two market orders wait, and nothing else but the armed protections. */
  predicate Waiting(v: VenueState, queue: seq<Order>, armed: seq<Protection>, tracked: real, next: nat) {
    && v.marketQueue == queue && v.limitOpen == [] && v.protections == armed && v.newlyArmed == []
    && v.protByExit == map[] && PositionAt(v, OWN) == tracked && v.nextId == next
  }

  lemma {:induction false} TwoSubmitted(v: VenueState, i: OrderIntent, j: OrderIntent, ts: int)
    requires v.marketQueue == [] && v.limitOpen == [] && i.pair == j.pair == OWN
    requires i.limitPrice == j.limitPrice == i.takeProfit == j.takeProfit == None
    ensures var after := SubmitAll(v, [Approval(i), Approval(j)], ts);
            && after.marketQueue == [MarketOrder(v.nextId, i, ts), MarketOrder(v.nextId + 1, j, ts)]
            && after.limitOpen == [] && after.protections == v.protections && after.newlyArmed == v.newlyArmed
            && after.protByExit == v.protByExit && after.positions == v.positions && after.nextId == v.nextId + 2
  {
    var a, b := Approval(i), Approval(j);
    assert [a, b][1..] == [b] && [b][1..] == [];
    var v' := Submit(v, OrderFrom(a, ts, v.nextId)).(nextId := v.nextId + 1);
    assert SubmitAll(v, [a, b], ts) == SubmitAll(v', [b], ts);
    var v'' := Submit(v', OrderFrom(b, ts, v'.nextId)).(nextId := v'.nextId + 1);
    assert SubmitAll(v', [b], ts) == SubmitAll(v'', [], ts) == v'';
  }

  lemma {:induction false} TwoMarketOrders(pr: Progress, a: Order, b: Order, c: Candle)
    ensures MarketPhase(FREE, pr, [a, b], c) == MarketStep(FREE, MarketStep(FREE, pr, a, c), b, c)
  {
    assert [a, b][1..] == [b];
    Runs.OneMarketOrder(MarketStep(FREE, pr, a, c), b, c);
  }

  /** The candle's own fills when two market orders wait and no limit does. */
  lemma OwnFills(v: VenueState, a: Order, b: Order, c: Candle)
    requires v.marketQueue == [a, b] && v.limitOpen == []
    ensures var start := Progress(PruneOrders(v).(marketQueue := []), []);
            var filled := MarketStep(FREE, MarketStep(FREE, start, a, c), b, c);
            OwnPhase(FREE, v, c) == filled.(venue := filled.venue.(limitOpen := []))
  {
    var start := Progress(PruneOrders(v).(marketQueue := []), []);
    TwoMarketOrders(start, a, b, c);
  }

  // ----- the first two candles -----

  /** Equity stands where it stood, and no cooldown runs. */
  predicate Calm(m: Risk.Manager) {
    !m.halted && m.cooldown == 0 && (m == Risk.FRESH || (m.dayStartFloor == 100.0 && m.lastFloor == Some(100.0)))
  }

  lemma StaysCalm(m: Risk.Manager, day: int)
    requires Calm(m)
    ensures Calm(Risk.OnCandle(LIMITS, m, day, 100.0))
  {}

  lemma FirstCandle()
    ensures var s := Step(CFG, Start(FRESH, Risk.FRESH), INPUTS[0]);
            && Waiting(s.venue, [MarketOrder(0, ENTRY, 0), MarketOrder(1, SIBLING, 0)], [], 0.0, 2)
            && s.books == FRESH && Calm(s.risk) && !s.killed
  {
    var s := Start(FRESH, Risk.FRESH);
    IdleCandle();
    FirstDecision(Settlement(s.venue, FRESH, Risk.FRESH, []));
  }

  lemma FirstDecision(t: Settlement)
    requires t.venue == Start(FRESH, Risk.FRESH).venue && t.books == FRESH && t.risk == Risk.FRESH
    ensures var s := Decide(CFG, t, false, INPUTS[0]);
            && Waiting(s.venue, [MarketOrder(0, ENTRY, 0), MarketOrder(1, SIBLING, 0)], [], 0.0, 2)
            && s.books == FRESH && Calm(s.risk) && !s.killed
  {
    var st := RiskStateAt(CFG, FRESH, QUIET);
    EntriesApproved(st);
    StaysCalm(t.risk, st.day);
    TwoSubmitted(t.venue, ENTRY, SIBLING, 0);
    Chosen(t, INPUTS[0], [Approval(ENTRY), Approval(SIBLING)]);
  }

  lemma IdleCandle()
    ensures var s := Start(FRESH, Risk.FRESH);
            AfterFills(CFG, s, QUIET) == Settlement(s.venue, FRESH, Risk.FRESH, [])
  {
    var v := Start(FRESH, Risk.FRESH).venue;
    assert PruneOrders(v).orders == map[];
    assert OnCandle(FREE, v, QUIET).venue.(newOrders := [], expired := []) == v;
  }

  /** The strategy's turn: a run that is not halted submits what risk approves. */
  lemma {:induction false} Chosen(t: Settlement, i: Input, batch: seq<Risk.Assessment>)
    requires i.control.Proceed?
    requires var st := RiskStateAt(CFG, t.books, i.candle);
             var risk := Risk.OnCandle(LIMITS, t.risk, st.day, Risk.FloorEquity(st));
             !risk.halted && risk.cooldown == 0 && batch == Risk.AssessSpot(LIMITS, 0, i.intents, st)
    ensures var st := RiskStateAt(CFG, t.books, i.candle);
            var risk := Risk.OnCandle(LIMITS, t.risk, st.day, Risk.FloorEquity(st));
            Decide(CFG, t, false, i) == EngineState(SubmitAll(t.venue, batch, i.candle.ts), t.books, risk, false)
  {}

  lemma EntriesFill(v: VenueState)
    requires Waiting(v, [MarketOrder(0, ENTRY, 0), MarketOrder(1, SIBLING, 0)], [], 0.0, 2)
    ensures var pr := OnCandle(FREE, v, FLAT_AGAIN);
            && Waiting(pr.venue, [], [STOP, OTHER_STOP], 6.0, 2)
            && pr.fills == [MarketFill(0, ENTRY, 60, 10.0), MarketFill(1, SIBLING, 60, 10.0)]
  {
    var a, b := MarketOrder(0, ENTRY, 0), MarketOrder(1, SIBLING, 0);
    var start := Progress(PruneOrders(v).(marketQueue := []), []);
    OwnFills(v, a, b, FLAT_AGAIN);
    assert FillMarket(FREE, a, FLAT_AGAIN) == MarketFill(0, ENTRY, 60, 10.0);
    assert FillMarket(FREE, b, FLAT_AGAIN) == MarketFill(1, SIBLING, 60, 10.0);
    var one := MarketStep(FREE, start, a, FLAT_AGAIN);
    assert PositionAt(one.venue, OWN) == 4.0 && one.venue.newlyArmed == [STOP] && one.venue.protections == [];
    var two := MarketStep(FREE, one, b, FLAT_AGAIN);
    assert PositionAt(two.venue, OWN) == 6.0 && two.venue.newlyArmed == [STOP] + [OTHER_STOP];
    assert [] + [STOP, OTHER_STOP] == [STOP] + [OTHER_STOP];
  }

  lemma {:induction false} EntriesSettle(s: Settlement)
    requires s.books == FRESH && s.accepted == []
    ensures var t := Settle(LIMITS, s, [MarketFill(0, ENTRY, 60, 10.0), MarketFill(1, SIBLING, 60, 10.0)]);
            t.books == HELD && t.venue == s.venue && t.risk == s.risk
  {
    var f, g := MarketFill(0, ENTRY, 60, 10.0), MarketFill(1, SIBLING, 60, 10.0);
    Runs.TwoFills(s, f, g);
    var first := SettleOne(LIMITS, s, f);
    assert first.books == Books(60.0, map[OWN := Position(4.0, 10.0, Some(60))], 0.0);
    assert SettleOne(LIMITS, first, g).books.positions == HELD.positions;
  }

  lemma SecondCandle(s: EngineState)
    requires Waiting(s.venue, [MarketOrder(0, ENTRY, 0), MarketOrder(1, SIBLING, 0)], [], 0.0, 2)
    requires s.books == FRESH && Calm(s.risk) && !s.killed
    ensures var r := Step(CFG, s, INPUTS[1]);
            && Waiting(r.venue, [MarketOrder(2, MORE, 60), MarketOrder(3, EXIT, 60)], [STOP, OTHER_STOP], 6.0, 4)
            && r.books == HELD
  {
    EntriesFill(s.venue);
    var pr := OnCandle(FREE, s.venue, FLAT_AGAIN);
    var start := Settlement(pr.venue.(newOrders := [], expired := []), s.books, s.risk, []);
    EntriesSettle(start);
    var t := AfterFills(CFG, s, FLAT_AGAIN);
    var st := RiskStateAt(CFG, HELD, FLAT_AGAIN);
    ChangesApproved(st);
    StaysCalm(t.risk, st.day);
    TwoSubmitted(t.venue, MORE, EXIT, 60);
    Chosen(t, INPUTS[1], [Approval(MORE), Approval(EXIT)]);
  }

  lemma TwoInputs()
    ensures var s := Run(CFG, Start(FRESH, Risk.FRESH), INPUTS);
            && Waiting(s.venue, [MarketOrder(2, MORE, 60), MarketOrder(3, EXIT, 60)], [STOP, OTHER_STOP], 6.0, 4)
            && s.books == HELD
  {
    FirstCandle();
    var first := Step(CFG, Start(FRESH, Risk.FRESH), INPUTS[0]);
    SecondCandle(first);
    RunOfTwo(Start(FRESH, Risk.FRESH), INPUTS[0], INPUTS[1]);
  }

  lemma {:induction false} RunOfTwo(s: EngineState, i: Input, j: Input)
    requires !s.killed && !s.risk.halted && !Step(CFG, s, i).killed && !Step(CFG, s, i).risk.halted
    ensures Run(CFG, s, [i, j]) == Step(CFG, Step(CFG, s, i), j)
  {
    assert [i, j][1..] == [j];
    Runs.OneInput(Step(CFG, s, i), j);
  }

  // ----- the third candle -----

  /** The buy and the sell fill at the gap, the first stop sells all that is tracked, and the second
      finds nothing left to guard. */
  lemma StopSellsAll(v: VenueState)
    requires Waiting(v, [MarketOrder(2, MORE, 60), MarketOrder(3, EXIT, 60)], [STOP, OTHER_STOP], 6.0, 4)
    ensures var pr := OnCandle(FREE, v, GAP);
            && pr.fills == [MarketFill(2, MORE, 120, 15.0), MarketFill(3, EXIT, 120, 15.0), STOPPED]
            && pr.venue.protections == [] && pr.venue.protByExit == map[Local(4) := STOP]
            && Local(2) in pr.venue.orders && Local(4) in pr.venue.orders
            && PositionAt(pr.venue, OWN) == 0.0
  {
    var a, b := MarketOrder(2, MORE, 60), MarketOrder(3, EXIT, 60);
    var start := Progress(PruneOrders(v).(marketQueue := []), []);
    OwnFills(v, a, b, GAP);
    assert FillMarket(FREE, a, GAP) == MarketFill(2, MORE, 120, 15.0);
    assert FillMarket(FREE, b, GAP) == MarketFill(3, EXIT, 120, 15.0);
    var one := MarketStep(FREE, start, a, GAP);
    assert PositionAt(one.venue, OWN) == 9.0 && one.venue.protections == [STOP, OTHER_STOP];
    var own := OwnPhase(FREE, v, GAP);
    assert PositionAt(own.venue, OWN) == 4.0 && own.venue.protections == [STOP, OTHER_STOP];
    assert own.venue.newlyArmed == [] && own.venue.nextId == 4 && own.venue.protByExit == map[];
    SweepSellsAll(own);
  }

  lemma {:induction false} SweepSellsAll(own: Progress)
    requires PositionAt(own.venue, OWN) == 4.0 && own.venue.newlyArmed == [] && own.venue.nextId == 4
    requires own.venue.protByExit == map[]
    ensures var r := ProtectionPhase(FREE, Sweep(own, []), [STOP, OTHER_STOP], GAP);
            && r.survivors == [] && r.progress.fills == own.fills + [STOPPED]
            && r.progress.venue.protByExit == map[Local(4) := STOP] && Local(4) in r.progress.venue.orders
            && r.progress.venue.newlyArmed == [] && PositionAt(r.progress.venue, OWN) == 0.0
            && (forall id :: id in own.venue.orders ==> id in r.progress.venue.orders)
  {
    var s := Sweep(own, []);
    assert CheckProtection(FREE, own.venue, STOP, GAP) == Some(STOPPED);
    var fired := ProtectionStep(FREE, s, STOP, GAP);
    assert PositionAt(fired.progress.venue, OWN) == 0.0;
    assert map[][Local(4) := STOP] == map[Local(4) := STOP];
    assert ProtectionStep(FREE, fired, OTHER_STOP, GAP) == fired;
    assert [STOP, OTHER_STOP][1..] == [OTHER_STOP] && [OTHER_STOP][1..] == [];
    assert ProtectionPhase(FREE, fired, [OTHER_STOP], GAP) == ProtectionPhase(FREE, fired, [], GAP) == fired;
  }

  lemma {:induction false} ThreeFills(s: Settlement, f: Fill, g: Fill, h: Fill)
    ensures Settle(LIMITS, s, [f, g, h]) == SettleOne(LIMITS, SettleOne(LIMITS, SettleOne(LIMITS, s, f), g), h)
  {
    assert [f, g, h][1..] == [g, h];
    Runs.TwoFills(SettleOne(LIMITS, s, f), g, h);
  }

  /** The ledger rejects the buy for want of cash, and the exit for want of a position. */
  lemma {:induction false} TwoRejected(s: Settlement)
    requires s.books == HELD && s.accepted == [] && s.venue.protections == []
    requires s.venue.protByExit == map[Local(4) := STOP] && PositionAt(s.venue, OWN) == 0.0
    requires Local(2) in s.venue.orders && Local(4) in s.venue.orders
    ensures var t := Settle(LIMITS, s, [MarketFill(2, MORE, 120, 15.0), MarketFill(3, EXIT, 120, 15.0), STOPPED]);
            && t.accepted == [false, true, false] && t.venue.protections == [STOP]
            && PositionAt(t.venue, OWN) == 1.0 && PositionOf(t.books, OWN).size == 1.0
  {
    var f, g := MarketFill(2, MORE, 120, 15.0), MarketFill(3, EXIT, 120, 15.0);
    ThreeFills(s, f, g, STOPPED);
    var one := SettleOne(LIMITS, s, f);
    assert one.books == HELD && one.venue.protections == [] && PositionAt(one.venue, OWN) == -3.0;
    assert one.accepted == [false] && one.venue.protByExit == s.venue.protByExit;
    var two := SettleOne(LIMITS, one, g);
    assert PositionOf(two.books, OWN).size == 1.0 && two.venue == one.venue && two.accepted == [false, true];
    RollbackRearms(two.venue, STOPPED);
  }

  /** With one unit still held and tracked, only the first stop is armed: the sibling had its turn
      when nothing was tracked, and the rollback does not bring it back. */
  lemma RejectedExitLosesSibling()
    ensures var s := Run(CFG, Start(FRESH, Risk.FRESH), INPUTS);
            var t := AfterFills(CFG, s, GAP);
            && s.venue.protections == [STOP, OTHER_STOP] && t.accepted == [false, true, false]
            && t.venue.protections == [STOP] && PositionAt(t.venue, OWN) == PositionOf(t.books, OWN).size == 1.0
  {
    TwoInputs();
    var s := Run(CFG, Start(FRESH, Risk.FRESH), INPUTS);
    StopSellsAll(s.venue);
    var pr := OnCandle(FREE, s.venue, GAP);
    TwoRejected(Settlement(pr.venue.(newOrders := [], expired := []), s.books, s.risk, []));
  }
}
