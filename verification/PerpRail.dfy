/** The rails over whole perp runs: what the risk manager has seen by the end, told from the candles,
    the funding and the signed ledger (kaupo/core/engine.py). */
module PerpRail {
  import opened Domain
  import opened Accounting
  import PaperVenue
  import Risk = RiskManager
  import E = Engine
  import P = PerpEngine
  import R = PerpRun
  import DailyRail
  import EngineRail
  import Sums

  /** A perp ledger takes any sell, and a buy it can pay for. */
  predicate Affordable(b: Books, f: Fill) {
    f.side == Sell || f.price * f.size + f.fee <= b.cash
  }

  /** What every fill the ledger takes adds to the realized PnL; an entry adds nothing, which leaves
      the streak as it is. */
  function Results(b: Books, fills: seq<Fill>): seq<Risk.Operation>
    requires R.PositiveFills(fills)
    decreases |fills|
  {
    if fills == [] then []
    else
      assert fills[0] in fills;
      match ApplyPerp(b, fills[0], false)
      case Failure(_) => Results(b, fills[1..])
      case Success(a) => [Risk.TradeResult(a.books.realized - b.realized)] + Results(a.books, fills[1..])
  }

  /** Which fills the ledger took. */
  function Taken(b: Books, fills: seq<Fill>): seq<bool>
    requires R.PositiveFills(fills)
    decreases |fills|
  {
    if fills == [] then []
    else
      assert fills[0] in fills;
      [Affordable(b, fills[0])] + Taken(Kept(b, ApplyPerp(b, fills[0], false)), fills[1..])
  }

  lemma TakenWhenAffordable(b: Books, f: Fill)
    requires f.size > 0.0
    ensures ApplyPerp(b, f, false).Success? <==> Affordable(b, f)
    ensures ApplyPerp(b, f, false).Success? ==>
        ApplyPerp(b, f, false).value.realized == ApplyPerp(b, f, false).value.books.realized - b.realized
  {
    assert f.side == Buy ==> -CashDelta(f) == f.price * f.size + f.fee;
  }

  lemma OneSettled(cfg: Risk.RiskConfig, s: E.Settlement, f: Fill)
    requires f.size > 0.0
    ensures var t, r := R.SettleOne(cfg, s, f), ApplyPerp(s.books, f, false);
            && t.books == Kept(s.books, r)
            && t.accepted == s.accepted + [Affordable(s.books, f)]
            && t.risk == (if r.Success? then
                            Risk.Operate(cfg, s.risk, Risk.TradeResult(r.value.books.realized - s.books.realized))
                          else s.risk)
  {
    TakenWhenAffordable(s.books, f);
  }

  lemma {:induction false} SettledPerp(cfg: Risk.RiskConfig, s: E.Settlement, fills: seq<Fill>)
    requires R.PositiveFills(fills)
    ensures R.Settle(cfg, s, fills).risk == Risk.Operated(cfg, s.risk, Results(s.books, fills))
    decreases |fills|
  {
    if fills != [] {
      assert fills[0] in fills;
      var next := R.SettleOne(cfg, s, fills[0]);
      OneSettled(cfg, s, fills[0]);
      SettledPerp(cfg, next, fills[1..]);
      if ApplyPerp(s.books, fills[0], false).Success? {
        var o := Risk.TradeResult(next.books.realized - s.books.realized);
        Risk.OperatedAppend(cfg, s.risk, [o], Results(next.books, fills[1..]));
        EngineRail.OneOperation(cfg, s.risk, o);
      }
    }
  }

  /** The fill loop's record is true: it says of every fill whether the ledger could take it. */
  lemma {:induction false} RecordIsTrue(cfg: Risk.RiskConfig, s: E.Settlement, fills: seq<Fill>)
    requires R.PositiveFills(fills)
    ensures R.Settle(cfg, s, fills).accepted == s.accepted + Taken(s.books, fills)
    decreases |fills|
  {
    if fills != [] {
      assert fills[0] in fills;
      OneSettled(cfg, s, fills[0]);
      RecordIsTrue(cfg, R.SettleOne(cfg, s, fills[0]), fills[1..]);
    }
  }

  /** Nothing is left: cash and the signed position at the close. */
  predicate Ruined(b: Books, pair: Pair, close: real) {
    b.cash + PositionOf(b, pair).size * close <= 0.0
  }

  lemma {:induction false} SumOfZeros(m: map<Pair, real>)
    requires forall p :: p in m ==> m[p] == 0.0
    ensures Sums.Sum(m) == 0.0
    decreases |m|
  {
    if m != map[] {
      var p :| p in m;
      Sums.SumRemove(m, p);
      SumOfZeros(m - {p});
    }
  }

  lemma EquityIsOwn(b: Books, pair: Pair, close: real)
    ensures EquityOf(b, map[pair := close]) == b.cash + PositionOf(b, pair).size * close
  {
    var prices := map[pair := close];
    var rest := b.positions - {pair};
    SumOfZeros(map p | p in rest :: ValueAt(rest[p], p, prices));
    if pair in b.positions {
      MarketValueRemove(b.positions, prices, pair);
    } else {
      assert rest == b.positions;
    }
  }

  /** The books once a candle's fills and funding are in. */
  ghost function Charged(cfg: R.PerpConfig, s: R.PerpState, i: R.PerpInput): Books
    requires R.Positive(s.engine.venue)
  {
    R.Funded(cfg, R.AfterFills(cfg, s.engine, i.input.candle).books, s.lastFunding, i.points, i.input.candle)
  }

  /** What the manager sees of a candle once its fills and funding are in. */
  ghost function Closing(pair: Pair, books: Books, c: Candle): Risk.Operation {
    if Ruined(books, pair, c.close) then Risk.EngineHalt(P.LIQUIDATED)
    else Risk.Candle((c.ts + c.seconds) / 86400, EngineRail.LowerOfCostAndMarket(books, pair, c.close))
  }

  /** What one candle shows the manager: the results of its fills, then the liquidation of a ruined
      run, or else the floor on the day its close falls in. */
  ghost function Seen(cfg: R.PerpConfig, s: R.PerpState, i: R.PerpInput): seq<Risk.Operation>
    requires R.Positive(s.engine.venue)
  {
    R.CandlePositive(cfg.engine.venue, s.engine.venue, i.input.candle);
    Results(s.engine.books, PaperVenue.OnCandle(cfg.engine.venue, s.engine.venue, i.input.candle).fills)
    + [Closing(cfg.engine.pair, Charged(cfg, s, i), i.input.candle)]
  }

  ghost function History(cfg: R.PerpConfig, s: R.PerpState, inputs: seq<R.PerpInput>): seq<Risk.Operation>
    requires cfg.engine.risk.costRate != -1.0 && cfg.engine.risk.perp && R.ValidInputs(inputs)
    requires R.Positive(s.engine.venue)
    decreases |inputs|
  {
    if inputs == [] || s.engine.killed || s.engine.risk.halted then []
    else
      assert inputs[0] in inputs;
      R.StepPositive(cfg, s, inputs[0]);
      Seen(cfg, s, inputs[0]) + History(cfg, R.Step(cfg, s, inputs[0]), inputs[1..])
  }

  lemma AfterFillsShows(cfg: R.PerpConfig, s: E.EngineState, c: Candle)
    requires R.Positive(s.venue)
    ensures var fills := PaperVenue.OnCandle(cfg.engine.venue, s.venue, c).fills;
            && R.PositiveFills(fills)
            && R.AfterFills(cfg, s, c).risk == Risk.Operated(cfg.engine.risk, s.risk, Results(s.books, fills))
  {
    R.CandlePositive(cfg.engine.venue, s.venue, c);
    var pr := PaperVenue.OnCandle(cfg.engine.venue, s.venue, c);
    var start := E.Settlement(pr.venue.(newOrders := [], expired := []), s.books, s.risk, []);
    SettledPerp(cfg.engine.risk, start, pr.fills);
  }

  lemma DecideShows(cfg: R.PerpConfig, t: E.Settlement, killed: bool, i: E.Input)
    requires cfg.engine.risk.costRate != -1.0
    ensures R.Decide(cfg, t, killed, i).risk
         == Risk.OnCandle(cfg.engine.risk, t.risk, (i.candle.ts + i.candle.seconds) / 86400,
                          EngineRail.LowerOfCostAndMarket(t.books, cfg.engine.pair, i.candle.close))
  {
    EngineRail.FloorIsLower(cfg.engine, t.books, i.candle);
  }

  lemma StepBranches(cfg: R.PerpConfig, s: R.PerpState, i: R.PerpInput)
    requires cfg.engine.risk.costRate != -1.0 && R.Positive(s.engine.venue)
    ensures var t, books := R.AfterFills(cfg, s.engine, i.input.candle), Charged(cfg, s, i);
            R.Step(cfg, s, i).engine.risk
            == if EquityOf(books, map[cfg.engine.pair := i.input.candle.close]) <= 0.0
               then t.risk.(halted := true, haltReason := P.LIQUIDATED)
               else R.Decide(cfg, t.(books := books), s.engine.killed, i.input).risk
  {}

  lemma RailIs(cfg: R.PerpConfig, t: E.Settlement, killed: bool, i: E.Input)
    requires cfg.engine.risk.costRate != -1.0
    ensures (if EquityOf(t.books, map[cfg.engine.pair := i.candle.close]) <= 0.0
             then t.risk.(halted := true, haltReason := P.LIQUIDATED)
             else R.Decide(cfg, t, killed, i).risk)
         == Risk.Operate(cfg.engine.risk, t.risk, Closing(cfg.engine.pair, t.books, i.candle))
  {
    RuinedMeans(t.books, cfg.engine.pair, i.candle.close);
    DecideShows(cfg, t, killed, i);
  }

  lemma RuinedMeans(b: Books, pair: Pair, close: real)
    ensures EquityOf(b, map[pair := close]) <= 0.0 <==> Ruined(b, pair, close)
  {
    EquityIsOwn(b, pair, close);
  }

  lemma OneStep(cfg: R.PerpConfig, s: R.PerpState, i: R.PerpInput)
    requires cfg.engine.risk.costRate != -1.0 && R.Positive(s.engine.venue)
    ensures R.Step(cfg, s, i).engine.risk == Risk.Operated(cfg.engine.risk, s.engine.risk, Seen(cfg, s, i))
  {
    var c, books := i.input.candle, Charged(cfg, s, i);
    var t := R.AfterFills(cfg, s.engine, c);
    AfterFillsShows(cfg, s.engine, c);
    StepBranches(cfg, s, i);
    RailIs(cfg, t.(books := books), s.engine.killed, i.input);
    var results := Results(s.engine.books, PaperVenue.OnCandle(cfg.engine.venue, s.engine.venue, c).fills);
    var closing := Closing(cfg.engine.pair, books, c);
    Risk.OperatedAppend(cfg.engine.risk, s.engine.risk, results, [closing]);
    EngineRail.OneOperation(cfg.engine.risk, t.risk, closing);
  }

  lemma {:induction false} RunShows(cfg: R.PerpConfig, s: R.PerpState, inputs: seq<R.PerpInput>)
    requires cfg.engine.risk.costRate != -1.0 && cfg.engine.risk.perp && R.ValidInputs(inputs)
    requires R.Positive(s.engine.venue)
    ensures R.Run(cfg, s, inputs).engine.risk
         == Risk.Operated(cfg.engine.risk, s.engine.risk, History(cfg, s, inputs))
    decreases |inputs|
  {
    if inputs != [] && !s.engine.killed && !s.engine.risk.halted {
      assert inputs[0] in inputs;
      R.StepPositive(cfg, s, inputs[0]);
      var next := R.Step(cfg, s, inputs[0]);
      OneStep(cfg, s, inputs[0]);
      RunShows(cfg, next, inputs[1..]);
      Risk.OperatedAppend(cfg.engine.risk, s.engine.risk, Seen(cfg, s, inputs[0]), History(cfg, next, inputs[1..]));
    }
  }

  /** Every perp run from a fresh manager ends halted if and only if at some candle nothing was left of
      cash and position at the close, fills and funding included, or the floor had lost the day's
      allowance against the floor its day began with. */
  lemma {:induction false} PerpRunHaltsExactly(cfg: R.PerpConfig, opening: Books, inputs: seq<R.PerpInput>)
    requires cfg.engine.risk.costRate != -1.0 && cfg.engine.risk.perp && R.ValidInputs(inputs)
    ensures var start := R.Start(opening, Risk.FRESH);
            var history := History(cfg, start, inputs);
            (R.Run(cfg, start, inputs).engine.risk.halted
             <==> DailyRail.HaltedByEngine(history)
                  || DailyRail.LossHit(cfg.engine.risk, DailyRail.Readings(history)))
  {
    var start := R.Start(opening, Risk.FRESH);
    RunShows(cfg, start, inputs);
    DailyRail.RailAndCooldown(cfg.engine.risk, History(cfg, start, inputs));
  }

  // ----- the forced close -----

  /** A forced close turns the position into cash at the close and pays the taker rate on what it was
      worth, long or short; a flat run pays nothing. */
  lemma CloseOutPays(cfg: R.PerpConfig, b: Books, id: OrderId, c: Candle)
    ensures var size := PositionOf(b, cfg.engine.pair).size;
            var worth := if size < 0.0 then -size * c.close else size * c.close;
            R.ClosedOut(cfg, b, id, c).cash == b.cash + size * c.close - worth * cfg.takerRate
  {
    var pair := cfg.engine.pair;
    var size := PositionOf(b, pair).size;
    if size != 0.0 {
      var events := P.LiquidationEvents(b, pair, id, c, cfg.takerRate);
      var f := P.LiquidationFill(id, pair, size, c, cfg.takerRate);
      assert events == [Liquidation(f)] && events[1..] == [];
      R.CloseOutProcesses(cfg, b, id, c);
      SizeAfter(true, b, f, true);
      var closed := Kept(b, ApplyPerp(b, f, true));
      assert Replay(true, closed, []) == closed;
      FeeOf(size, c.close, cfg.takerRate);
    }
  }

  lemma FeeOf(size: real, close: real, rate: real)
    ensures P.TakerFee(size, close, rate) == (if size < 0.0 then -size * close else size * close) * rate
    ensures Abs(size) * close == if size < 0.0 then -size * close else size * close
  {}
}
