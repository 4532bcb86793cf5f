/** The rails and the orders of whole portfolio runs: what the shared risk manager has seen by the end,
    and which venue gets what (kaupo/core/portfolio_engine.py). */
module PortfolioRail {
  import opened Domain
  import opened Accounting
  import opened PortfolioEngine
  import PaperVenue
  import Risk = RiskManager
  import E = Engine
  import EngineRail
  import DailyRail
  import OrdersPlaced
  import BatchRules
  import Sums

  /** The results of the turns, pair by pair in their order. */
  ghost function TurnResults(cfg: Config, s: State, order: seq<Pair>, candles: map<Pair, Candle>): seq<Risk.Operation>
    requires forall p :: p in order ==> p in s.venues && p in candles
    decreases |order|
  {
    if order == [] then []
    else
      var p := order[0];
      EngineRail.SaleResults(s.books, PaperVenue.OnCandle(cfg.venue, s.venues[p], candles[p]).fills)
      + TurnResults(cfg, AfterTurn(cfg, s, p, candles[p]), order[1..], candles)
  }

  function LastClose(s: State, p: Pair): real {
    if p in s.closes then s.closes[p] else 0.0
  }

  /** One pair's value at the lower of cost and its last known close. */
  function LowerOf(s: State, p: Pair): real {
    LowerValue(PositionOf(s.books, p), LastClose(s, p))
  }

  ghost function LowerValues(s: State): map<Pair, real> {
    map p | p in s.venues :: LowerOf(s, p)
  }

  /** Cash plus every position of the universe at the lower of cost and its last known close; a pair
      that never had a candle counts as worth nothing. */
  ghost function PortfolioFloor(s: State): real {
    s.books.cash + Sums.Sum(LowerValues(s))
  }

  function LowerValue(pos: Position, price: real): real {
    if pos.size * pos.avgEntry <= pos.size * price then pos.size * pos.avgEntry else pos.size * price
  }

  /** What a step shows the manager: the results of all turns, then the portfolio's floor on the day
      the step closes in. */
  ghost function Seen(cfg: Config, s: State, i: Input): seq<Risk.Operation>
    requires ValidInput(i, s.venues.Keys)
  {
    TurnResults(cfg, s.(closes := s.closes + Closes(i.step.candles)), i.order, i.step.candles)
    + [Risk.Candle((i.step.ts + cfg.seconds) / 86400, PortfolioFloor(AfterFills(cfg, s, i)))]
  }

  ghost function History(cfg: Config, s: State, inputs: seq<Input>, end: State): seq<Risk.Operation>
    requires cfg.risk.costRate != -1.0 && Runs(cfg, s, inputs, end)
    decreases |inputs|
  {
    if inputs == [] || s.killed || s.risk.halted then []
    else Seen(cfg, s, inputs[0]) + History(cfg, Processed(cfg, s, inputs[0]), inputs[1..], end)
  }

  lemma {:induction false} TurnsShow(cfg: Config, s: State, order: seq<Pair>, candles: map<Pair, Candle>)
    requires forall p :: p in order ==> p in s.venues && p in candles
    ensures AfterTurns(cfg, s, order, candles).risk
         == Risk.Operated(cfg.risk, s.risk, TurnResults(cfg, s, order, candles))
    decreases |order|
  {
    if order != [] {
      var p := order[0];
      var pr := PaperVenue.OnCandle(cfg.venue, s.venues[p], candles[p]);
      var start := E.Settlement(pr.venue.(newOrders := [], expired := []), s.books, s.risk, []);
      var next := AfterTurn(cfg, s, p, candles[p]);
      EngineRail.SettledRisk(cfg.risk, start, pr.fills);
      TurnsShow(cfg, next, order[1..], candles);
      Risk.OperatedAppend(cfg.risk, s.risk, EngineRail.SaleResults(s.books, pr.fills),
                          TurnResults(cfg, next, order[1..], candles));
    }
  }

  function FloorOf(st: Risk.RiskState, p: Pair): real
    requires p in st.positions
  {
    Risk.FloorValue(st.positions[p], Risk.Get(st.prices, p))
  }

  lemma SameFloor(cfg: Config, s: State, ts: int, p: Pair)
    requires p in s.venues
    ensures FloorOf(RiskStateAt(cfg, s, ts), p) == LowerOf(s, p)
  {
    SameLower(PositionOf(s.books, p), LastClose(s, p));
  }

  ghost function FloorValues(st: Risk.RiskState): map<Pair, real> {
    map p | p in st.positions :: FloorOf(st, p)
  }

  lemma SameMap(st: Risk.RiskState, s: State)
    requires st.positions.Keys == s.venues.Keys && forall p :: p in s.venues ==> FloorOf(st, p) == LowerOf(s, p)
    ensures FloorValues(st) == LowerValues(s)
  {}

  lemma SameValues(cfg: Config, s: State, ts: int)
    ensures FloorValues(RiskStateAt(cfg, s, ts)) == LowerValues(s)
  {
    forall p | p in s.venues {
      SameFloor(cfg, s, ts, p);
    }
    SameMap(RiskStateAt(cfg, s, ts), s);
  }

  lemma FloorSums(st: Risk.RiskState)
    ensures Risk.FloorEquity(st) == st.cash + Sums.Sum(FloorValues(st))
  {
    assert (map p | p in st.positions :: Risk.FloorValue(st.positions[p], Risk.Get(st.prices, p))) == FloorValues(st);
  }

  lemma FloorIsPortfolio(cfg: Config, s: State, ts: int)
    ensures Risk.FloorEquity(RiskStateAt(cfg, s, ts)) == PortfolioFloor(s)
  {
    var st := RiskStateAt(cfg, s, ts);
    SameValues(cfg, s, ts);
    FloorSums(st);
  }

  lemma SameLower(pos: Position, price: real)
    ensures LowerValue(pos, price) == Risk.FloorValue(pos, price)
  {}

  lemma DecideShows(cfg: Config, t: State, i: Input)
    requires cfg.risk.costRate != -1.0
    ensures Decide(cfg, t, i).risk
         == Risk.Operate(cfg.risk, t.risk, Risk.Candle((i.step.ts + cfg.seconds) / 86400, PortfolioFloor(t)))
  {
    FloorIsPortfolio(cfg, t, i.step.ts);
    assert Acted(cfg, t.(risk := Checked(cfg, t, i.step.ts)), i).risk == Checked(cfg, t, i.step.ts);
  }

  lemma OneStep(cfg: Config, s: State, i: Input)
    requires cfg.risk.costRate != -1.0 && ValidInput(i, s.venues.Keys)
    ensures Processed(cfg, s, i).risk == Risk.Operated(cfg.risk, s.risk, Seen(cfg, s, i))
  {
    var priced := s.(closes := s.closes + Closes(i.step.candles));
    var t := AfterFills(cfg, s, i);
    var results := TurnResults(cfg, priced, i.order, i.step.candles);
    var candle := Risk.Candle((i.step.ts + cfg.seconds) / 86400, PortfolioFloor(t));
    TurnsShow(cfg, priced, i.order, i.step.candles);
    DecideShows(cfg, t, i);
    Risk.OperatedAppend(cfg.risk, s.risk, results, [candle]);
    EngineRail.OneOperation(cfg.risk, t.risk, candle);
  }

  lemma {:induction false} RunShows(cfg: Config, s: State, inputs: seq<Input>, end: State)
    requires cfg.risk.costRate != -1.0 && Runs(cfg, s, inputs, end)
    ensures end.risk == Risk.Operated(cfg.risk, s.risk, History(cfg, s, inputs, end))
    decreases |inputs|
  {
    if inputs != [] && !s.killed && !s.risk.halted {
      var next := Processed(cfg, s, inputs[0]);
      OneStep(cfg, s, inputs[0]);
      RunShows(cfg, next, inputs[1..], end);
      Risk.OperatedAppend(cfg.risk, s.risk, Seen(cfg, s, inputs[0]), History(cfg, next, inputs[1..], end));
    }
  }

  ghost predicate NoHalts(ops: seq<Risk.Operation>) {
    forall o :: o in ops ==> !o.EngineHalt?
  }

  lemma SeenHasNoHalt(cfg: Config, s: State, i: Input)
    requires ValidInput(i, s.venues.Keys)
    ensures NoHalts(Seen(cfg, s, i))
  {
    OnlyTurnResults(cfg, s.(closes := s.closes + Closes(i.step.candles)), i.order, i.step.candles);
  }

  lemma NoHaltsJoin(a: seq<Risk.Operation>, b: seq<Risk.Operation>)
    requires NoHalts(a) && NoHalts(b)
    ensures NoHalts(a + b)
  {}

  lemma {:induction false} NoEngineHalts(cfg: Config, s: State, inputs: seq<Input>, end: State)
    requires cfg.risk.costRate != -1.0 && Runs(cfg, s, inputs, end)
    ensures NoHalts(History(cfg, s, inputs, end))
    decreases |inputs|
  {
    if inputs != [] && !s.killed && !s.risk.halted {
      var next := Processed(cfg, s, inputs[0]);
      SeenHasNoHalt(cfg, s, inputs[0]);
      NoEngineHalts(cfg, next, inputs[1..], end);
      NoHaltsJoin(Seen(cfg, s, inputs[0]), History(cfg, next, inputs[1..], end));
    }
  }

  lemma {:induction false} OnlyTurnResults(cfg: Config, s: State, order: seq<Pair>, candles: map<Pair, Candle>)
    requires forall p :: p in order ==> p in s.venues && p in candles
    ensures forall o :: o in TurnResults(cfg, s, order, candles) ==> o.TradeResult?
    decreases |order|
  {
    if order != [] {
      var p := order[0];
      EngineRail.OnlyResults(s.books, PaperVenue.OnCandle(cfg.venue, s.venues[p], candles[p]).fills);
      OnlyTurnResults(cfg, AfterTurn(cfg, s, p, candles[p]), order[1..], candles);
    }
  }

  /** Every portfolio run from a fresh manager ends halted if and only if at some step the floor of the
      whole portfolio had lost the day's allowance against the floor its day began with. */
  lemma {:induction false} PortfolioRunHaltsExactly(cfg: Config, universe: set<Pair>, opening: Books,
                                                    inputs: seq<Input>, end: State)
    requires cfg.risk.costRate != -1.0 && Runs(cfg, Start(universe, opening, Risk.FRESH), inputs, end)
    ensures end.risk.halted
       <==> DailyRail.LossHit(cfg.risk,
                              DailyRail.Readings(History(cfg, Start(universe, opening, Risk.FRESH), inputs, end)))
  {
    var start := Start(universe, opening, Risk.FRESH);
    RunShows(cfg, start, inputs, end);
    NoEngineHalts(cfg, start, inputs, end);
    DailyRail.RailAndCooldown(cfg.risk, History(cfg, start, inputs, end));
  }

  // ----- last known closes -----

  /** The close of a pair's newest candle in these steps. */
  function NewestClose(inputs: seq<Input>, p: Pair): Option<real> {
    if inputs == [] then None
    else
      var last := inputs[|inputs| - 1].step.candles;
      if p in last then Some(last[p].close) else NewestClose(inputs[..|inputs| - 1], p)
  }

  /** The close known after `inputs`, when `known` was known before them. */
  function Known(known: map<Pair, real>, inputs: seq<Input>, p: Pair): Option<real> {
    match NewestClose(inputs, p)
    case Some(close) => Some(close)
    case None => if p in known then Some(known[p]) else None
  }

  predicate Knows(closes: map<Pair, real>, p: Pair, close: Option<real>) {
    (p in closes <==> close.Some?) && (p in closes ==> closes[p] == close.value)
  }

  lemma {:induction false} KnownFirst(known: map<Pair, real>, next: map<Pair, real>, inputs: seq<Input>, p: Pair)
    requires inputs != [] && Knows(next, p, Known(known, [inputs[0]], p))
    ensures Known(next, inputs[1..], p) == Known(known, inputs, p)
  {
    var last := |inputs| - 1;
    assert NewestClose([inputs[0]][..0], p) == None;
    if last > 0 && p !in inputs[last].step.candles {
      assert inputs[1..][..last - 1] == inputs[..last][1..];
      KnownFirst(known, next, inputs[..last], p);
    } else if last == 0 {
      assert inputs == [inputs[0]];
    }
  }

  lemma {:induction false} TurnsKeepCloses(cfg: Config, s: State, order: seq<Pair>, candles: map<Pair, Candle>)
    requires forall p :: p in order ==> p in s.venues && p in candles
    ensures AfterTurns(cfg, s, order, candles).closes == s.closes
    decreases |order|
  {
    if order != [] {
      TurnsKeepCloses(cfg, AfterTurn(cfg, s, order[0], candles[order[0]]), order[1..], candles);
    }
  }

  lemma StepKnows(cfg: Config, s: State, i: Input, p: Pair)
    requires cfg.risk.costRate != -1.0 && ValidInput(i, s.venues.Keys)
    ensures Knows(AfterFills(cfg, s, i).closes, p, Known(s.closes, [i], p))
    ensures Processed(cfg, s, i).closes == AfterFills(cfg, s, i).closes
  {
    assert NewestClose([i][..0], p) == None;
    TurnsKeepCloses(cfg, s.(closes := s.closes + Closes(i.step.candles)), i.order, i.step.candles);
  }

  lemma {:induction false} RunKnows(cfg: Config, s: State, inputs: seq<Input>, end: State, p: Pair)
    requires cfg.risk.costRate != -1.0 && Runs(cfg, s, inputs, end) && !end.killed && !end.risk.halted
    ensures Knows(end.closes, p, Known(s.closes, inputs, p))
    decreases |inputs|
  {
    if inputs != [] {
      var next := Processed(cfg, s, inputs[0]);
      StepKnows(cfg, s, inputs[0], p);
      RunKnows(cfg, next, inputs[1..], end, p);
      KnownFirst(s.closes, next.closes, inputs, p);
    }
  }

  /** In a run that goes on, the price risk sees of a pair is the close of its newest candle, this
      step's included, also when the pair misses steps; a pair that had none has no price. */
  lemma {:induction false} PricesAreNewestCloses(cfg: Config, universe: set<Pair>, opening: Books, inputs: seq<Input>,
                                                 end: State, i: Input, p: Pair)
    requires cfg.risk.costRate != -1.0 && Runs(cfg, Start(universe, opening, Risk.FRESH), inputs, end)
    requires !end.killed && !end.risk.halted && ValidInput(i, end.venues.Keys)
    ensures Knows(RiskStateAt(cfg, AfterFills(cfg, end, i), i.step.ts).prices, p, NewestClose(inputs + [i], p))
  {
    RunKnows(cfg, Start(universe, opening, Risk.FRESH), inputs, end, p);
    StepKnows(cfg, end, i, p);
    assert (inputs + [i])[..|inputs|] == inputs && NewestClose([i][..0], p) == None;
  }

  // ----- orders -----

  /** The assessments of one pair, in order. */
  function OnPair(batch: seq<Risk.Assessment>, p: Pair): seq<Risk.Assessment> {
    if batch == [] then [] else (if batch[0].intent.pair == p then [batch[0]] else []) + OnPair(batch[1..], p)
  }

  lemma {:induction false} RoutedIsSubmitted(venues: map<Pair, PaperVenue.VenueState>, batch: seq<Risk.Assessment>,
                                             ts: int, p: Pair)
    requires p in venues
    ensures RoutedAll(venues, batch, ts).Keys == venues.Keys
    ensures RoutedAll(venues, batch, ts)[p] == E.SubmitAll(venues[p], OnPair(batch, p), ts)
    decreases |batch|
  {
    if batch != [] {
      RoutedIsSubmitted(Routed(venues, batch[0], ts), batch[1..], ts, p);
      if batch[0].intent.pair == p {
        assert ([batch[0]] + OnPair(batch[1..], p))[1..] == OnPair(batch[1..], p);
      } else {
        assert [] + OnPair(batch[1..], p) == OnPair(batch[1..], p);
      }
    }
  }

  /** A step that is neither halted, paused nor killed leaves waiting at each venue exactly one order
      per granted intent of its own pair, in order and numbered on; any other step leaves the venues
      as the turns did. Only a kill that is not halted or paused marks the run killed. */
  lemma {:induction false} EachVenueGetsItsOwn(cfg: Config, s: State, i: Input, p: Pair)
    returns (orders: seq<PaperVenue.Order>)
    requires cfg.risk.costRate != -1.0 && p in s.venues
    ensures var after := Decide(cfg, s, i);
            var acts := !after.risk.halted && i.control.Proceed?;
            var batch := Risk.AssessSpot(cfg.risk, after.risk.cooldown, InUniverse(i.intents, s.venues.Keys),
                                         RiskStateAt(cfg, s, i.step.ts));
            && after.venues.Keys == s.venues.Keys && after.books == s.books
            && OrdersPlaced.OrdersOf(orders, if acts then OrdersPlaced.GrantedOf(OnPair(batch, p)) else [],
                                     i.step.ts, s.venues[p].nextId)
            && OrdersPlaced.Placed(s.venues[p], after.venues[p], orders)
            && (after.killed <==> s.killed || (i.control.Kill? && !after.risk.halted))
  {
    var checked := s.(risk := Checked(cfg, s, i.step.ts));
    assert RiskStateAt(cfg, checked, i.step.ts) == RiskStateAt(cfg, s, i.step.ts);
    if !checked.risk.halted && i.control.Proceed? {
      var batch := Risk.AssessSpot(cfg.risk, checked.risk.cooldown, InUniverse(i.intents, s.venues.Keys),
                                   RiskStateAt(cfg, s, i.step.ts));
      RoutedIsSubmitted(s.venues, batch, i.step.ts, p);
      orders := OrdersPlaced.SubmittedOrders(s.venues[p], OnPair(batch, p), i.step.ts);
    } else {
      orders := [];
    }
  }
}
