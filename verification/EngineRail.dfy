/** The daily rail and the cooldown over whole engine runs: what the risk manager has seen by the end
    of a run, told from the candles and the ledger (kaupo/core/engine.py). */
module EngineRail {
  import opened Domain
  import opened Accounting
  import opened Engine
  import PaperVenue
  import Risk = RiskManager
  import DailyRail
  import Sums

  /** The result of every sell the ledger accepts: what it adds to the realized PnL. */
  function SaleResults(b: Books, fills: seq<Fill>): seq<Risk.Operation>
    decreases |fills|
  {
    if fills == [] then []
    else
      match ApplySpot(b, fills[0])
      case Failure(_) => SaleResults(b, fills[1..])
      case Success(a) =>
        (if fills[0].side == Sell then [Risk.TradeResult(a.books.realized - b.realized)] else [])
        + SaleResults(a.books, fills[1..])
  }

  /** Cash plus the position at the lower of cost and market. */
  function LowerOfCostAndMarket(b: Books, pair: Pair, price: real): real {
    var pos := PositionOf(b, pair);
    b.cash + (if pos.size * pos.avgEntry <= pos.size * price then pos.size * pos.avgEntry else pos.size * price)
  }

  /** What one candle shows the manager: the results of its sells, then the floor on the day its
      close falls in. */
  ghost function Seen(cfg: EngineConfig, s: EngineState, c: Candle): seq<Risk.Operation> {
    var floor := LowerOfCostAndMarket(AfterFills(cfg, s, c).books, cfg.pair, c.close);
    SaleResults(s.books, PaperVenue.OnCandle(cfg.venue, s.venue, c).fills)
    + [Risk.Candle((c.ts + c.seconds) / 86400, floor)]
  }

  /** What a whole run shows it. */
  ghost function History(cfg: EngineConfig, s: EngineState, inputs: seq<Input>): seq<Risk.Operation>
    requires cfg.risk.costRate != -1.0
    decreases |inputs|
  {
    if inputs == [] || s.killed || s.risk.halted then []
    else Seen(cfg, s, inputs[0].candle) + History(cfg, Step(cfg, s, inputs[0]), inputs[1..])
  }

  lemma RealizedIsTheChange(b: Books, f: Fill)
    requires ApplySpot(b, f).Success?
    ensures ApplySpot(b, f).value.realized == ApplySpot(b, f).value.books.realized - b.realized
  {}

  lemma {:induction false} SettledRisk(cfg: Risk.RiskConfig, s: Settlement, fills: seq<Fill>)
    ensures Settle(cfg, s, fills).risk == Risk.Operated(cfg, s.risk, SaleResults(s.books, fills))
    decreases |fills|
  {
    if fills != [] {
      var next := SettleOne(cfg, s, fills[0]);
      SettledRisk(cfg, next, fills[1..]);
      match ApplySpot(s.books, fills[0]) {
        case Failure(_) =>
        case Success(a) =>
          RealizedIsTheChange(s.books, fills[0]);
          if fills[0].side == Sell {
            Risk.OperatedAppend(cfg, s.risk, [Risk.TradeResult(a.realized)], SaleResults(a.books, fills[1..]));
            OneOperation(cfg, s.risk, Risk.TradeResult(a.realized));
          } else {
            assert [] + SaleResults(a.books, fills[1..]) == SaleResults(a.books, fills[1..]);
          }
      }
    }
  }

  lemma {:induction false} OneOperation(cfg: Risk.RiskConfig, m: Risk.Manager, o: Risk.Operation)
    ensures Risk.Operated(cfg, m, [o]) == Risk.Operate(cfg, m, o)
  {
    assert [o][1..] == [];
    assert Risk.Operated(cfg, Risk.Operate(cfg, m, o), []) == Risk.Operate(cfg, m, o);
  }

  lemma FloorIsLower(cfg: EngineConfig, b: Books, c: Candle)
    ensures Risk.FloorEquity(RiskStateAt(cfg, b, c)) == LowerOfCostAndMarket(b, cfg.pair, c.close)
  {
    var st := RiskStateAt(cfg, b, c);
    var floors := map p | p in st.positions :: Risk.FloorValue(st.positions[p], Risk.Get(st.prices, p));
    var floor := Risk.FloorValue(PositionOf(b, cfg.pair), c.close);
    assert floors == map[cfg.pair := floor];
    Sums.SumSingleton(cfg.pair, floor);
  }

  lemma OneStep(cfg: EngineConfig, s: EngineState, i: Input)
    requires cfg.risk.costRate != -1.0
    ensures Step(cfg, s, i).risk == Risk.Operated(cfg.risk, s.risk, Seen(cfg, s, i.candle))
  {
    var c, t := i.candle, AfterFills(cfg, s, i.candle);
    var results := SaleResults(s.books, PaperVenue.OnCandle(cfg.venue, s.venue, c).fills);
    var candle := Risk.Candle((c.ts + c.seconds) / 86400, LowerOfCostAndMarket(t.books, cfg.pair, c.close));
    var pr := PaperVenue.OnCandle(cfg.venue, s.venue, c);
    SettledRisk(cfg.risk, Settlement(pr.venue.(newOrders := [], expired := []), s.books, s.risk, []), pr.fills);
    FloorIsLower(cfg, t.books, c);
    Risk.OperatedAppend(cfg.risk, s.risk, results, [candle]);
    OneOperation(cfg.risk, t.risk, candle);
  }

  lemma {:induction false} RunShows(cfg: EngineConfig, s: EngineState, inputs: seq<Input>)
    requires cfg.risk.costRate != -1.0
    ensures Run(cfg, s, inputs).risk == Risk.Operated(cfg.risk, s.risk, History(cfg, s, inputs))
    decreases |inputs|
  {
    if inputs != [] && !s.killed && !s.risk.halted {
      var next := Step(cfg, s, inputs[0]);
      OneStep(cfg, s, inputs[0]);
      RunShows(cfg, next, inputs[1..]);
      Risk.OperatedAppend(cfg.risk, s.risk, Seen(cfg, s, inputs[0].candle), History(cfg, next, inputs[1..]));
    }
  }

  lemma {:induction false} NoEngineHalts(cfg: EngineConfig, s: EngineState, inputs: seq<Input>)
    requires cfg.risk.costRate != -1.0
    ensures forall o :: o in History(cfg, s, inputs) ==> !o.EngineHalt?
    decreases |inputs|
  {
    if inputs != [] && !s.killed && !s.risk.halted {
      OnlyResults(s.books, PaperVenue.OnCandle(cfg.venue, s.venue, inputs[0].candle).fills);
      NoEngineHalts(cfg, Step(cfg, s, inputs[0]), inputs[1..]);
    }
  }

  lemma {:induction false} OnlyResults(b: Books, fills: seq<Fill>)
    ensures forall o :: o in SaleResults(b, fills) ==> o.TradeResult?
    decreases |fills|
  {
    if fills != [] {
      match ApplySpot(b, fills[0]) {
        case Failure(_) => OnlyResults(b, fills[1..]);
        case Success(a) => OnlyResults(a.books, fills[1..]);
      }
    }
  }

  /** Every spot run from a fresh manager ends halted if and only if at some candle the floor had lost
      the day's allowance against the floor its day began with; the day is that of the candle's close,
      and the floor takes the position at the lower of cost and the close, after the candle's fills. */
  lemma {:induction false} RunHaltsExactly(cfg: EngineConfig, opening: Books, inputs: seq<Input>)
    requires cfg.risk.costRate != -1.0
    ensures var start := Start(opening, Risk.FRESH);
            (Run(cfg, start, inputs).risk.halted
             <==> DailyRail.LossHit(cfg.risk, DailyRail.Readings(History(cfg, start, inputs))))
  {
    var start := Start(opening, Risk.FRESH);
    RunShows(cfg, start, inputs);
    NoEngineHalts(cfg, start, inputs);
    DailyRail.RailAndCooldown(cfg.risk, History(cfg, start, inputs));
  }
}
