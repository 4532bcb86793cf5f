/** What funding does to the cash of a perp run, told from the position, the close and the rates
    (kaupo/core/engine.py). */
module FundingCash {
  import opened Domain
  import opened Accounting
  import opened PerpEngine
  import OrderFlow
  import E = Engine
  import R = PerpRun

  /** The sum of the rates. */
  function RateSum(events: seq<Point>): real {
    if events == [] then 0.0 else RateSum(events[..|events| - 1]) + events[|events| - 1].body
  }

  /** What a position is charged at a close for rates that sum to `rates`. */
  function Charge(size: real, close: real, rates: real): real {
    (size * close) * rates
  }

  lemma ChargeAdds(size: real, close: real, a: real, b: real)
    ensures Charge(size, close, a + b) == Charge(size, close, a) + Charge(size, close, b)
  {}

  lemma PaymentIsCharge(size: real, close: real, rate: real)
    ensures Payment(size, close, rate) == -Charge(size, close, rate)
  {}

  lemma {:induction false} TotalLast(events: seq<Event>, amount: real)
    ensures TotalFunding(events + [Funding(amount)]) == TotalFunding(events) + amount
  {
    if events == [] {
      assert (events + [Funding(amount)])[1..] == [];
    } else {
      assert (events + [Funding(amount)])[1..] == events[1..] + [Funding(amount)];
      TotalLast(events[1..], amount);
    }
  }

  lemma {:induction false} PaymentsTotal(events: seq<Point>, size: real, close: real)
    ensures TotalFunding(Payments(events, size, close)) == -Charge(size, close, RateSum(events))
  {
    if events != [] {
      var init, last := events[..|events| - 1], events[|events| - 1];
      PaymentsTotal(init, size, close);
      TotalLast(Payments(init, size, close), Payment(size, close, last.body));
      PaymentIsCharge(size, close, last.body);
      ChargeAdds(size, close, RateSum(init), last.body);
    } else {
      assert Charge(size, close, 0.0) == 0.0;
    }
  }

  /** The candle's funding takes the position's size times the close times the rates of the events
      it charges out of the cash, and touches nothing else. */
  lemma {:induction false} CandleFunding(b: Books, pair: Pair, points: seq<Point>, last: Option<int>, c: Candle)
    ensures var events := FundingEvents(b, pair, points, last, c);
            && Processable(true, events)
            && Replay(true, b, events)
               == b.(cash := b.cash - Charge(PositionOf(b, pair).size, c.close, RateSum(NewEvents(points, last, c))))
  {
    var size := PositionOf(b, pair).size;
    var charged := NewEvents(points, last, c);
    R.PaymentsOnly(charged, size, c.close);
    R.FundingKeepsPositions(b, FundingEvents(b, pair, points, last, c));
    FundingRealizesNothing(b, FundingEvents(b, pair, points, last, c));
    if size == 0.0 {
      assert Charge(size, c.close, RateSum(charged)) == 0.0;
    } else {
      PaymentsTotal(charged, size, c.close);
    }
  }

  lemma {:induction false} FundingRealizesNothing(b: Books, events: seq<Event>)
    requires forall e :: e in events ==> e.Funding?
    ensures Processable(true, events) && Replay(true, b, events).realized == b.realized
    decreases |events|
  {
    if events != [] {
      assert events[0] in events;
      FundingRealizesNothing(Process(true, b, events[0]), events[1..]);
    }
  }

  /** Longs pay shorts when rates are positive: at a positive close the cash of a long falls, and
      that of a short rises, by the magnitude times the close times the rates; with negative rates it
      is the reverse. Between two closes with at most ten events, all of them are charged. */
  lemma {:induction false} LongsPayShorts(b: Books, pair: Pair, points: seq<Point>, last: Option<int>, from: int,
                                          c: Candle)
    requires OrderFlow.Sorted(points) && Begins(points, last, from, c) && c.close > 0.0
    requires |Interval(points, from, CloseOf(c))| <= LOOKBACK
    ensures var events := FundingEvents(b, pair, points, last, c);
            var size, rates := PositionOf(b, pair).size, RateSum(Interval(points, from, CloseOf(c)));
            && Processable(true, events)
            && var moved := Replay(true, b, events).cash - b.cash;
               && Abs(moved) == (Abs(size) * c.close) * Abs(rates)
               && (size > 0.0 && rates > 0.0 ==> moved < 0.0) && (size < 0.0 && rates > 0.0 ==> moved > 0.0)
               && (size > 0.0 && rates < 0.0 ==> moved > 0.0) && (size < 0.0 && rates < 0.0 ==> moved < 0.0)
  {
    CandleFunding(b, pair, points, last, c);
    ChargesTheInterval(points, last, from, c);
    ChargeSign(PositionOf(b, pair).size, c.close, RateSum(Interval(points, from, CloseOf(c))));
  }

  lemma ChargeSign(size: real, close: real, rates: real)
    requires close > 0.0
    ensures var x := Charge(size, close, rates);
            && Abs(x) == (Abs(size) * close) * Abs(rates)
            && (size > 0.0 && rates > 0.0 ==> x > 0.0) && (size < 0.0 && rates > 0.0 ==> x < 0.0)
            && (size > 0.0 && rates < 0.0 ==> x < 0.0) && (size < 0.0 && rates < 0.0 ==> x > 0.0)
  {
    var held := Abs(size) * close;
    assert size * close == if size >= 0.0 then held else -held;
    ProductSign(held, rates);
  }

  lemma ProductSign(held: real, rates: real)
    requires held >= 0.0
    ensures Abs(held * rates) == held * Abs(rates) && (-held) * rates == -(held * rates)
    ensures held > 0.0 && rates > 0.0 ==> held * rates > 0.0
    ensures held > 0.0 && rates < 0.0 ==> held * rates < 0.0
  {}

  /** Two opposite positions pay each other exactly. */
  lemma {:induction false} OppositesPayEachOther(a: Books, b: Books, pair: Pair, points: seq<Point>, last: Option<int>,
                                                 c: Candle)
    requires PositionOf(a, pair).size == -PositionOf(b, pair).size
    ensures var ea, eb := FundingEvents(a, pair, points, last, c), FundingEvents(b, pair, points, last, c);
            && Processable(true, ea) && Processable(true, eb)
            && Replay(true, a, ea).cash + Replay(true, b, eb).cash == a.cash + b.cash
  {
    CandleFunding(a, pair, points, last, c);
    CandleFunding(b, pair, points, last, c);
    OppositeCharge(PositionOf(b, pair).size, c.close, RateSum(NewEvents(points, last, c)));
  }

  lemma OppositeCharge(size: real, close: real, rates: real)
    ensures Charge(-size, close, rates) == -Charge(size, close, rates)
  {
    assert (-size) * close == -(size * close);
  }

  // ----- a whole run -----

  /** Candle by candle, everything since the candle before is charged. */
  ghost predicate EachCharged(points: seq<Point>, last: Option<int>, from: int, candles: seq<Candle>)
    decreases |candles|
  {
    candles == []
    || (NewEvents(points, last, candles[0]) == Interval(points, from, CloseOf(candles[0]))
        && EachCharged(points, Advanced(last, NewEvents(points, last, candles[0])), CloseOf(candles[0]), candles[1..]))
  }

  lemma {:induction false} TenIsEach(points: seq<Point>, last: Option<int>, from: int, candles: seq<Candle>)
    requires OrderFlow.Sorted(points) && candles != [] && InOrder(candles) && Begins(points, last, from, candles[0])
    requires last.Some? || Interval(points, from, CloseOf(candles[0])) != []
    requires AtMostTen(points, from, candles)
    ensures EachCharged(points, last, from, candles)
    decreases |candles|
  {
    var c := candles[0];
    ChargesTheInterval(points, last, from, c);
    StaysCaughtUp(points, last, from, c);
    if |candles| > 1 {
      OrderedTail(candles);
      TenIsEach(points, Advanced(last, NewEvents(points, last, c)), CloseOf(c), candles[1..]);
    }
  }

  /** In the case where a run charges all its funding it does so candle by candle. */
  lemma {:induction false} AllIsEach(points: seq<Point>, last: Option<int>, from: int, candles: seq<Candle>)
    requires OrderFlow.Sorted(points) && candles != [] && InOrder(candles) && Begins(points, last, from, candles[0])
    requires ChargesAll(points, last, from, candles)
    ensures EachCharged(points, last, from, candles)
  {
    if last.Some? || Interval(points, from, CloseOf(candles[0])) != [] {
      assert last.None? ==> BeforeFirst(points, candles) == 0 && candles[0..] == candles;
      TenIsEach(points, last, from, candles);
    } else {
      FreshEach(points, from, candles, BeforeFirst(points, candles));
    }
  }

  /** A fresh run whose first k candles hold no event and have none between them. */
  lemma {:induction false} FreshEach(points: seq<Point>, from: int, candles: seq<Candle>, k: nat)
    requires OrderFlow.Sorted(points) && candles != [] && InOrder(candles) && k <= |candles|
    requires from <= candles[0].ts && (k == 0 ==> from == candles[0].ts)
    requires if k == |candles| then Interval(points, from, CloseOf(candles[|candles| - 1])) == []
             else Interval(points, from, candles[k].ts) == [] && AtMostTen(points, candles[k].ts, candles[k..])
                  && Interval(points, candles[k].ts, CloseOf(candles[k])) != []
    ensures EachCharged(points, None, from, candles)
    decreases |candles|
  {
    var c := candles[0];
    if k == 0 {
      assert candles[0..] == candles;
      TenIsEach(points, None, from, candles);
    } else {
      NothingYet(points, from, candles, k);
      if |candles| > 1 {
        var rest := candles[1..];
        OrderedTail(candles);
        assert k < |candles| ==> rest[k - 1] == candles[k] && rest[k - 1..] == candles[k..];
        FreshRest(points, from, candles, k);
      }
    }
  }

  /** The first candle of such a run charges nothing. */
  lemma NothingYet(points: seq<Point>, from: int, candles: seq<Candle>, k: nat)
    requires OrderFlow.Sorted(points) && candles != [] && InOrder(candles) && 0 < k <= |candles|
    requires from <= candles[0].ts
    requires Interval(points, from, if k == |candles| then CloseOf(candles[|candles| - 1]) else candles[k].ts) == []
    ensures NewEvents(points, None, candles[0]) == Interval(points, from, CloseOf(candles[0])) == []
    ensures Interval(points, CloseOf(candles[0]),
                     if k == |candles| then CloseOf(candles[|candles| - 1]) else candles[k].ts)
         == []
  {
    var c, end := candles[0], if k == |candles| then CloseOf(candles[|candles| - 1]) else candles[k].ts;
    ClosesAscend(candles, 0, k - 1);
    assert CloseOf(c) <= end;
    IntervalSplits(points, from, CloseOf(c), end);
    IntervalSplits(points, from, c.ts, CloseOf(c));
    ChargesTheInterval(points, None, c.ts, c);
  }

  lemma {:induction false} FreshRest(points: seq<Point>, from: int, candles: seq<Candle>, k: nat)
    requires OrderFlow.Sorted(points) && |candles| > 1 && InOrder(candles) && 0 < k <= |candles|
    requires from <= candles[0].ts
    requires if k == |candles| then Interval(points, from, CloseOf(candles[|candles| - 1])) == []
             else Interval(points, from, candles[k].ts) == [] && AtMostTen(points, candles[k].ts, candles[k..])
                  && Interval(points, candles[k].ts, CloseOf(candles[k])) != []
    ensures EachCharged(points, None, CloseOf(candles[0]), candles[1..])
    decreases |candles|, 0
  {
    var rest, start := candles[1..], CloseOf(candles[0]);
    OrderedTail(candles);
    NothingYet(points, from, candles, k);
    if k == 1 {
      assert rest == candles[1..] && rest[0] == candles[1];
      IntervalEmptyMoves(points, start, rest);
    } else {
      assert k < |candles| ==> rest[k - 1] == candles[k] && rest[k - 1..] == candles[k..];
      assert rest[|rest| - 1] == candles[|candles| - 1];
      FreshEach(points, start, rest, k - 1);
    }
  }

  /** Nothing lies between the start and the first candle: it does not matter which begins. */
  lemma {:induction false} IntervalEmptyMoves(points: seq<Point>, start: int, rest: seq<Candle>)
    requires OrderFlow.Sorted(points) && rest != [] && InOrder(rest) && start <= rest[0].ts
    requires Interval(points, start, rest[0].ts) == [] && AtMostTen(points, rest[0].ts, rest)
    requires Interval(points, rest[0].ts, CloseOf(rest[0])) != []
    ensures EachCharged(points, None, start, rest)
  {
    TenIsEach(points, None, rest[0].ts, rest);
    IntervalSplits(points, start, rest[0].ts, CloseOf(rest[0]));
    assert [] + Interval(points, rest[0].ts, CloseOf(rest[0])) == Interval(points, rest[0].ts, CloseOf(rest[0]));
  }

  function CandlesOf(inputs: seq<R.PerpInput>): seq<Candle> {
    seq(|inputs|, i requires 0 <= i < |inputs| => inputs[i].input.candle)
  }

  /** What a run is charged, candle by candle: the position its fill loop left, times the close,
      times the rates of all events since the candle before. */
  ghost function RunCharge(cfg: R.PerpConfig, s: R.PerpState, inputs: seq<R.PerpInput>, points: seq<Point>, from: int)
    : real
    requires cfg.engine.risk.costRate != -1.0 && cfg.engine.risk.perp && R.ValidInputs(inputs)
    requires R.Positive(s.engine.venue)
    decreases |inputs|
  {
    if inputs == [] || s.engine.killed || s.engine.risk.halted then 0.0
    else
      assert inputs[0] in inputs;
      R.StepPositive(cfg, s, inputs[0]);
      var c := inputs[0].input.candle;
      var size := PositionOf(R.AfterFills(cfg, s.engine, c).books, cfg.engine.pair).size;
      Charge(size, c.close, RateSum(Interval(points, from, CloseOf(c))))
      + RunCharge(cfg, R.Step(cfg, s, inputs[0]), inputs[1..], points, CloseOf(c))
  }

  lemma {:induction false} RunPaysEach(cfg: R.PerpConfig, s: R.PerpState, inputs: seq<R.PerpInput>, points: seq<Point>,
                                       from: int)
    requires cfg.engine.risk.costRate != -1.0 && cfg.engine.risk.perp && R.ValidInputs(inputs)
    requires R.Positive(s.engine.venue) && (forall i :: i in inputs ==> i.points == points)
    requires EachCharged(points, s.lastFunding, from, CandlesOf(inputs))
    ensures R.RunFunding(cfg, s, inputs) == -RunCharge(cfg, s, inputs, points, from)
    decreases |inputs|
  {
    if inputs != [] && !s.engine.killed && !s.engine.risk.halted {
      var i, rest := inputs[0], inputs[1..];
      assert i in inputs;
      var c := i.input.candle;
      assert CandlesOf(inputs)[0] == c && CandlesOf(inputs)[1..] == CandlesOf(rest);
      R.StepPositive(cfg, s, i);
      StepPays(cfg, s, i);
      RunPaysEach(cfg, R.Step(cfg, s, i), rest, points, CloseOf(c));
    }
  }

  lemma StepPays(cfg: R.PerpConfig, s: R.PerpState, i: R.PerpInput)
    requires R.Positive(s.engine.venue)
    ensures var c := i.input.candle;
            var size := PositionOf(R.AfterFills(cfg, s.engine, c).books, cfg.engine.pair).size;
            R.StepFunding(cfg, s, i) == -Charge(size, c.close, RateSum(NewEvents(i.points, s.lastFunding, c)))
  {
    var c := i.input.candle;
    var b := R.AfterFills(cfg, s.engine, c).books;
    var size, charged := PositionOf(b, cfg.engine.pair).size, NewEvents(i.points, s.lastFunding, c);
    if size == 0.0 {
      assert Charge(size, c.close, RateSum(charged)) == 0.0;
    } else {
      PaymentsTotal(charged, size, c.close);
    }
  }

  /** Over every perp run whose candles charge all their funding, the cash that funding moved is that
      charge, candle by candle; with the accounting identity this is all that cash plus cost basis
      minus realized PnL has moved. */
  lemma {:induction false} RunPaysItsFunding(cfg: R.PerpConfig, opening: Books, risk: E.Risk.Manager,
                                             inputs: seq<R.PerpInput>, points: seq<Point>)
    requires cfg.engine.risk.costRate != -1.0 && cfg.engine.risk.perp && R.ValidInputs(inputs)
    requires inputs != [] && (forall i :: i in inputs ==> i.points == points)
    requires var candles := CandlesOf(inputs);
             OrderFlow.Sorted(points) && InOrder(candles) && ChargesAll(points, None, candles[0].ts, candles)
    ensures var start := R.Start(opening, risk);
            PaidIn(R.Run(cfg, start, inputs).engine.books)
            == PaidIn(opening) - RunCharge(cfg, start, inputs, points, inputs[0].input.candle.ts)
  {
    var start, candles := R.Start(opening, risk), CandlesOf(inputs);
    AllIsEach(points, None, candles[0].ts, candles);
    RunPaysEach(cfg, start, inputs, points, candles[0].ts);
    R.EveryPerpRunAgrees(cfg, opening, risk, inputs);
  }
}
