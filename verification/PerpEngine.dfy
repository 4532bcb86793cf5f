/** Funding and the liquidation rail of a perp run (kaupo/core/engine.py).

    A perp run is a backtest: its funding series is known up to the clock and sorted. */
module PerpEngine {
  import opened Domain
  import opened Accounting
  import OrderFlow
  import L = Ledger
  import Risk = RiskManager

  /** A funding event: its time and rate. */
  type Point = OrderFlow.Row<real>

  const LOOKBACK := 10
  const LIQUIDATED := "liquidated: equity depleted"

  function CloseOf(c: Candle): int {
    c.ts + c.seconds
  }

  /** The points after `since`. */
  function After(points: seq<Point>, since: int): seq<Point> {
    if points == [] then []
    else (if points[0].ts > since then [points[0]] else []) + After(points[1..], since)
  }

  function Since(last: Option<int>, c: Candle): int {
    last.GetOr(c.ts)
  }

  /** The events a candle charges: the newest ten at its close, without those charged before. */
  function NewEvents(points: seq<Point>, last: Option<int>, c: Candle): seq<Point> {
    After(OrderFlow.Newest(points, CloseOf(c), LOOKBACK), Since(last, c))
  }

  /** Where the next candle continues, also while flat. */
  function Advanced(last: Option<int>, events: seq<Point>): Option<int> {
    if events == [] then last else Some(events[|events| - 1].ts)
  }

  /** A positive rate means longs pay shorts, at the candle's close. */
  function Payment(size: real, close: real, rate: real): real {
    -size * close * rate
  }

  function Payments(events: seq<Point>, size: real, close: real): seq<Event> {
    if events == [] then []
    else Payments(events[..|events| - 1], size, close) + [Funding(Payment(size, close, events[|events| - 1].body))]
  }

  /** What a candle's funding does to the books: nothing while flat. */
  function FundingEvents(b: Books, pair: Pair, points: seq<Point>, last: Option<int>, c: Candle): seq<Event> {
    var size := PositionOf(b, pair).size;
    if size == 0.0 then [] else Payments(NewEvents(points, last, c), size, c.close)
  }

  function TakerFee(size: real, close: real, rate: real): real {
    Abs(size) * close * rate
  }

  /** The forced close of the whole position at the candle's close. */
  function LiquidationFill(id: OrderId, pair: Pair, size: real, c: Candle, takerRate: real): Fill {
    Fill(id, pair, if size < 0.0 then Buy else Sell, CloseOf(c), c.close, Abs(size),
         TakerFee(size, c.close, takerRate), None)
  }

  function LiquidationEvents(b: Books, pair: Pair, id: OrderId, c: Candle, takerRate: real): seq<Event> {
    var size := PositionOf(b, pair).size;
    if size == 0.0 then [] else [Liquidation(LiquidationFill(id, pair, size, c, takerRate))]
  }

  // ----- funding is charged once -----

  /** Every point up to `t` was considered; no point lies between the last charged one and `t`. */
  predicate CaughtUp(points: seq<Point>, last: Option<int>, t: int) {
    last.Some? ==> last.value <= t && forall i :: 0 <= i < |points| ==> points[i].ts <= last.value || t < points[i].ts
  }

  /** Where the events a candle charges begin: its open, until the first event was charged; from
      then on where the candle before it ended. */
  predicate Begins(points: seq<Point>, last: Option<int>, from: int, c: Candle) {
    CaughtUp(points, last, from) && from < CloseOf(c) && (last.None? ==> from == c.ts)
  }

  /** The events of (from, to]. */
  function Interval(points: seq<Point>, from: int, to: int): seq<Point> {
    OrderFlow.Window(points, Some(from + 1), to)
  }

  lemma {:induction false} AfterNone(points: seq<Point>, since: int)
    requires forall i :: 0 <= i < |points| ==> points[i].ts <= since
    ensures After(points, since) == []
  {
    if points != [] {
      AfterNone(points[1..], since);
    }
  }

  lemma {:induction false} AfterAll(points: seq<Point>, since: int)
    requires forall i :: 0 <= i < |points| ==> since < points[i].ts
    ensures After(points, since) == points
  {
    if points != [] {
      AfterAll(points[1..], since);
      assert points == [points[0]] + points[1..];
    }
  }

  lemma {:induction false} AfterAppend(a: seq<Point>, b: seq<Point>, since: int)
    ensures After(a + b, since) == After(a, since) + After(b, since)
  {
    if a == [] {
      assert a + b == b;
    } else {
      assert (a + b)[1..] == a[1..] + b;
      AfterAppend(a[1..], b, since);
    }
  }

  lemma {:induction false} WindowSource(points: seq<Point>, start: Option<int>, now: int, p: Point)
    ensures p in OrderFlow.Window(points, start, now) ==> p in points && OrderFlow.Within(p.ts, start, now)
  {
    if points != [] {
      WindowSource(points[1..], start, now, p);
    }
  }

  lemma {:induction false} BelowSource(points: seq<Point>, start: int, p: Point)
    ensures p in OrderFlow.Below(points, start) ==> p in points && p.ts < start
  {
    if points != [] {
      BelowSource(points[1..], start, p);
    }
  }

  /** A caught-up run charges exactly the newest ten events since it was. */
  lemma ChargesTheInterval(points: seq<Point>, last: Option<int>, from: int, c: Candle)
    requires OrderFlow.Sorted(points) && Begins(points, last, from, c)
    ensures NewEvents(points, last, c) == OrderFlow.Last(Interval(points, from, CloseOf(c)), LOOKBACK)
  {
    var close, since := CloseOf(c), Since(last, c);
    var older, own := OrderFlow.Below(points, from + 1), Interval(points, from, close);
    OrderFlow.SplitAt(points, from + 1, close);
    OrderFlow.LastAppend(older, own, LOOKBACK);
    forall i | 0 <= i < |older| ensures older[i].ts <= since {
      BelowSource(points, from + 1, older[i]);
      var k :| 0 <= k < |points| && points[k] == older[i];
    }
    forall i | 0 <= i < |own| ensures since < own[i].ts {
      WindowSource(points, Some(from + 1), close, own[i]);
    }
    Separates(older, own, since);
  }

  /** Of the newest ten rows, those after `since` are the newest ten of the later part. */
  lemma {:induction false} Separates(older: seq<Point>, own: seq<Point>, since: int)
    requires forall i :: 0 <= i < |older| ==> older[i].ts <= since
    requires forall i :: 0 <= i < |own| ==> since < own[i].ts
    ensures After(OrderFlow.Last(older + own, LOOKBACK), since) == OrderFlow.Last(own, LOOKBACK)
  {
    OrderFlow.NewestSplits(older, own, LOOKBACK);
    var kept := OrderFlow.Last(older, OrderFlow.Room(|own|, LOOKBACK));
    AfterAppend(kept, OrderFlow.Last(own, LOOKBACK), since);
    AfterNone(kept, since);
    AfterAll(OrderFlow.Last(own, LOOKBACK), since);
  }

  lemma StaysCaughtUp(points: seq<Point>, last: Option<int>, from: int, c: Candle)
    requires OrderFlow.Sorted(points) && Begins(points, last, from, c)
    ensures CaughtUp(points, Advanced(last, NewEvents(points, last, c)), CloseOf(c))
    ensures Interval(points, from, CloseOf(c)) != [] ==> NewEvents(points, last, c) != []
  {
    var close := CloseOf(c);
    var own := Interval(points, from, close);
    ChargesTheInterval(points, last, from, c);
    OrderFlow.WindowElements(points, Some(from + 1), close);
    forall i | 0 <= i < |points| && from < points[i].ts <= close
      ensures own != [] && points[i].ts <= own[|own| - 1].ts
    {
      InInterval(points, from, close, i);
      var k :| 0 <= k < |own| && own[k] == points[i];
    }
    if own != [] {
      WindowSource(points, Some(from + 1), close, own[|own| - 1]);
    }
  }

  lemma {:induction false} InInterval(points: seq<Point>, from: int, to: int, i: nat)
    requires i < |points| && from < points[i].ts <= to
    ensures points[i] in Interval(points, from, to)
  {
    if i > 0 {
      InInterval(points[1..], from, to, i - 1);
    }
  }

  /** Candles in order; some may be missing. */
  predicate InOrder(candles: seq<Candle>) {
    && (forall k :: 0 <= k < |candles| ==> candles[k].seconds > 0)
    && (forall k :: 0 < k < |candles| ==> CloseOf(candles[k - 1]) <= candles[k].ts)
  }

  /** Candles without a gap between them. */
  predicate Contiguous(candles: seq<Candle>) {
    forall k :: 0 < k < |candles| ==> candles[k].ts == CloseOf(candles[k - 1])
  }

  /** All events a run of candles charges, starting from `last`. */
  function Charged(points: seq<Point>, last: Option<int>, candles: seq<Candle>): seq<Point>
    decreases |candles|
  {
    if candles == [] then []
    else
      var events := NewEvents(points, last, candles[0]);
      events + Charged(points, Advanced(last, events), candles[1..])
  }

  /** Between two closes lie no more events than the engine looks back. */
  predicate AtMostTen(points: seq<Point>, from: int, candles: seq<Candle>)
    decreases |candles|
  {
    candles == [] || (|Interval(points, from, CloseOf(candles[0]))| <= LOOKBACK
                      && AtMostTen(points, CloseOf(candles[0]), candles[1..]))
  }

  lemma {:induction false} IntervalSplits(points: seq<Point>, from: int, mid: int, to: int)
    requires OrderFlow.Sorted(points) && from <= mid <= to
    ensures Interval(points, from, to) == Interval(points, from, mid) + Interval(points, mid, to)
  {
    if points != [] {
      IntervalSplits(points[1..], from, mid, to);
      if mid < points[0].ts {
        NothingBefore(points, from, mid);
      }
    }
  }

  lemma {:induction false} NothingBefore(points: seq<Point>, from: int, mid: int)
    requires OrderFlow.Sorted(points) && (points != [] ==> mid < points[0].ts)
    ensures Interval(points, from, mid) == []
  {
    if points != [] {
      assert points[1..] != [] ==> points[0].ts <= points[1..][0].ts;
      NothingBefore(points[1..], from, mid);
    }
  }

  lemma OrderedTail(candles: seq<Candle>)
    requires InOrder(candles) && |candles| > 1
    ensures InOrder(candles[1..]) && (Contiguous(candles) ==> Contiguous(candles[1..]))
    ensures CloseOf(candles[0]) <= candles[1].ts && CloseOf(candles[0]) <= CloseOf(candles[|candles| - 1])
  {
    var rest := candles[1..];
    assert forall k :: 0 <= k < |rest| ==> rest[k] == candles[k + 1];
    ClosesAscend(candles, 0, |candles| - 1);
  }

  lemma {:induction false} ClosesAscend(candles: seq<Candle>, i: nat, j: nat)
    requires InOrder(candles) && i <= j < |candles|
    ensures CloseOf(candles[i]) <= CloseOf(candles[j])
    decreases j
  {
    if i < j {
      ClosesAscend(candles, i, j - 1);
      assert CloseOf(candles[j - 1]) <= candles[j].ts;
    }
  }

  /** Once an event was charged, with candles missing or not, a run charges no more than the events
      up to its end, and all of them exactly when no two closes have more between them than the
      engine looks back. Before that the same holds without gaps. */
  lemma {:induction false} FundingChargedOnce(points: seq<Point>, last: Option<int>, from: int, candles: seq<Candle>)
    requires OrderFlow.Sorted(points) && candles != [] && InOrder(candles) && Begins(points, last, from, candles[0])
    requires last.Some? || Contiguous(candles) || Interval(points, from, CloseOf(candles[0])) != []
    ensures var all := Interval(points, from, CloseOf(candles[|candles| - 1]));
            && |Charged(points, last, candles)| <= |all|
            && (Charged(points, last, candles) == all <==> AtMostTen(points, from, candles))
    decreases |candles|
  {
    var c := candles[0];
    var own := Interval(points, from, CloseOf(c));
    var events := NewEvents(points, last, c);
    ChargesTheInterval(points, last, from, c);
    StaysCaughtUp(points, last, from, c);
    if |candles| == 1 {
      assert candles[1..] == [] && events + [] == events;
    } else {
      var rest := candles[1..];
      OrderedTail(candles);
      FundingChargedOnce(points, Advanced(last, events), CloseOf(c), rest);
      var end := CloseOf(candles[|candles| - 1]);
      assert rest[|rest| - 1] == candles[|candles| - 1];
      IntervalSplits(points, from, CloseOf(c), end);
      JoinedOnce(own, events, Interval(points, CloseOf(c), end), Charged(points, Advanced(last, events), rest));
    }
  }

  /** A fresh run charges nothing until a candle has an event between its own open and close. */
  lemma {:induction false} FirstCharge(points: seq<Point>, candles: seq<Candle>, k: nat)
    requires OrderFlow.Sorted(points) && InOrder(candles) && k <= |candles|
    requires forall j :: 0 <= j < k ==> Interval(points, candles[j].ts, CloseOf(candles[j])) == []
    ensures Charged(points, None, candles) == Charged(points, None, candles[k..])
    decreases k
  {
    if k == 0 {
      assert candles[0..] == candles;
    } else {
      var rest := candles[1..];
      assert Interval(points, candles[0].ts, CloseOf(candles[0])) == [];
      ChargesTheInterval(points, None, candles[0].ts, candles[0]);
      assert forall j :: 0 <= j < |rest| ==> rest[j] == candles[j + 1];
      FirstCharge(points, rest, k - 1);
      assert rest[k - 1..] == candles[k..];
    }
  }

  /** How many candles pass before one has an event between its own open and close. */
  function BeforeFirst(points: seq<Point>, candles: seq<Candle>): (k: nat)
    ensures k <= |candles|
    ensures forall j :: 0 <= j < k ==> Interval(points, candles[j].ts, CloseOf(candles[j])) == []
    ensures k < |candles| ==> Interval(points, candles[k].ts, CloseOf(candles[k])) != []
  {
    if candles == [] || Interval(points, candles[0].ts, CloseOf(candles[0])) != [] then 0
    else 1 + BeforeFirst(points, candles[1..])
  }

  /** When a run of candles charges every event of its span: once an event was charged, exactly when
      no two closes have more between them than the engine looks back; in a fresh run, exactly when
      nothing precedes the first candle with an event of its own, and the same holds from there. */
  ghost predicate ChargesAll(points: seq<Point>, last: Option<int>, from: int, candles: seq<Candle>)
    requires candles != []
  {
    var k := BeforeFirst(points, candles);
    if last.Some? then AtMostTen(points, from, candles)
    else if k == |candles| then Interval(points, from, CloseOf(candles[|candles| - 1])) == []
    else Interval(points, from, candles[k].ts) == [] && AtMostTen(points, candles[k].ts, candles[k..])
  }

  /** Over any candles in order, missing ones included, from any state of a run. */
  lemma {:induction false} FundingExactly(points: seq<Point>, last: Option<int>, from: int, candles: seq<Candle>)
    requires OrderFlow.Sorted(points) && candles != [] && InOrder(candles) && Begins(points, last, from, candles[0])
    ensures var all := Interval(points, from, CloseOf(candles[|candles| - 1]));
            && |Charged(points, last, candles)| <= |all|
            && (Charged(points, last, candles) == all <==> ChargesAll(points, last, from, candles))
  {
    if last.Some? {
      FundingChargedOnce(points, last, from, candles);
    } else {
      var k := BeforeFirst(points, candles);
      FirstCharge(points, candles, k);
      if k == |candles| {
        assert candles[k..] == [];
      } else {
        FreshFrom(points, candles, k);
      }
    }
  }

  lemma {:induction false} FreshFrom(points: seq<Point>, candles: seq<Candle>, k: nat)
    requires OrderFlow.Sorted(points) && InOrder(candles) && k < |candles|
    requires Interval(points, candles[k].ts, CloseOf(candles[k])) != []
    ensures var all := Interval(points, candles[0].ts, CloseOf(candles[|candles| - 1]));
            var charged := Charged(points, None, candles[k..]);
            && |charged| <= |all|
            && (charged == all <==> Interval(points, candles[0].ts, candles[k].ts) == []
                                    && AtMostTen(points, candles[k].ts, candles[k..]))
  {
    var rest, end := candles[k..], CloseOf(candles[|candles| - 1]);
    assert forall j :: 0 <= j < |rest| ==> rest[j] == candles[k + j];
    FundingChargedOnce(points, None, candles[k].ts, rest);
    OpensAscend(candles, k);
    IntervalSplits(points, candles[0].ts, candles[k].ts, end);
    var before, later := Interval(points, candles[0].ts, candles[k].ts), Interval(points, candles[k].ts, end);
    assert before == [] ==> before + later == later;
  }

  lemma OpensAscend(candles: seq<Candle>, k: nat)
    requires InOrder(candles) && k < |candles|
    ensures candles[0].ts <= candles[k].ts <= CloseOf(candles[|candles| - 1])
  {
    ClosesAscend(candles, k, |candles| - 1);
    if k > 0 {
      ClosesAscend(candles, 0, k - 1);
      assert CloseOf(candles[k - 1]) <= candles[k].ts;
    }
  }

  const EVENT := OrderFlow.Row(90, 0.01)
  const EARLY := Candle(Pair("BTC", "EUR"), 0, 60, 100.0, 100.0, 100.0, 100.0)
  const LATE := Candle(Pair("BTC", "EUR"), 120, 60, 100.0, 100.0, 100.0, 100.0)

  /** So an event in a gap before the first charge is never charged. */
  lemma GapHidesTheFirstEvent()
    ensures OrderFlow.Sorted([EVENT]) && InOrder([EARLY, LATE])
    ensures Interval([EVENT], 0, 180) == [EVENT] && Charged([EVENT], None, [EARLY, LATE]) == []
  {
    OneEvent(0, 180);
    NoneOfTheirOwn();
    FirstCharge([EVENT], [EARLY, LATE], 2);
    assert [EARLY, LATE][2..] == [];
  }

  lemma NoneOfTheirOwn()
    ensures InOrder([EARLY, LATE])
    ensures forall j :: 0 <= j < 2 ==> Interval([EVENT], [EARLY, LATE][j].ts, CloseOf([EARLY, LATE][j])) == []
  {
    OneEvent(0, 60);
    OneEvent(120, 180);
    forall j | 0 <= j < 2 ensures Interval([EVENT], [EARLY, LATE][j].ts, CloseOf([EARLY, LATE][j])) == [] {
      assert [EARLY, LATE][j] == if j == 0 then EARLY else LATE;
    }
  }

  lemma OneEvent(from: int, to: int)
    ensures Interval([EVENT], from, to) == if from < 90 <= to then [EVENT] else []
  {
    assert [EVENT][1..] == [] && OrderFlow.Window([EVENT][1..], Some(from + 1), to) == [];
    assert OrderFlow.Within(90, Some(from + 1), to) <==> from < 90 <= to;
  }

  lemma JoinedOnce(own: seq<Point>, events: seq<Point>, later: seq<Point>, charged: seq<Point>)
    requires events == OrderFlow.Last(own, LOOKBACK) && |charged| <= |later|
    ensures |events + charged| <= |own + later|
    ensures events + charged == own + later <==> |own| <= LOOKBACK && charged == later
  {
    if events + charged == own + later {
      assert |events| <= |own|;
      assert |events| == |own| && |charged| == |later|;
      assert (events + charged)[|events|..] == charged && (own + later)[|own|..] == later;
    }
  }

  // ----- liquidation -----

  lemma AbsSize(pos: Position)
    requires pos.size != 0.0
    ensures Abs(pos.size) > 0.0 && Abs(pos.size) != 0.0
  {}

  /** Liquidation is always accepted, leaves no position, and costs equity only its fee. */
  lemma LiquidationFlattens(b: Books, pair: Pair, id: OrderId, c: Candle, takerRate: real)
    requires PositionOf(b, pair).size != 0.0
    ensures var size := PositionOf(b, pair).size;
            var f := LiquidationFill(id, pair, size, c, takerRate);
            && f.size > 0.0 && ApplyPerp(b, f, true).Success?
            && var after := ApplyPerp(b, f, true).value.books;
               && PositionOf(after, pair) == FLAT
               && after.cash == b.cash + Worth(PositionOf(b, pair), c.close) - f.fee
  {
    var pos := PositionOf(b, pair);
    var f := LiquidationFill(id, pair, pos.size, c, takerRate);
    AbsSize(pos);
    assert ClosingSize(pos, f) == f.size;
    CancelDivision(f.fee, f.size);
    WorthOfClose(pos.size, c.close);
  }

  lemma WorthOfClose(size: real, close: real)
    ensures size < 0.0 ==> -(close * Abs(size)) == size * close
    ensures size >= 0.0 ==> close * Abs(size) == size * close
  {}

  // ----- the engine's perp part -----

  /** Replaying one more funding payment. */
  lemma {:induction false} ReplayOneMore(b: Books, events: seq<Event>, e: Event)
    requires Processable(true, events) && Processes(true, e)
    ensures Processable(true, events + [e])
    ensures Replay(true, b, events + [e]) == Process(true, Replay(true, b, events), e)
    decreases |events|
  {
    var all := events + [e];
    assert forall x :: x in all ==> x in events || x == e;
    if events == [] {
      assert all[1..] == [];
    } else {
      assert all[1..] == events[1..] + [e];
      ReplayOneMore(Process(true, b, events[0]), events[1..], e);
    }
  }

  lemma {:induction false} PaymentsProcess(events: seq<Point>, size: real, close: real)
    ensures Processable(true, Payments(events, size, close))
  {
    if events != [] {
      PaymentsProcess(events[..|events| - 1], size, close);
    }
  }

  class PerpEngine {
    const pair: Pair
    const takerRate: real
    const ledger: L.Ledger
    const risk: Risk.RiskManager
    var lastFundingTs: Option<int>

    constructor (pair: Pair, takerRate: real, ledger: L.Ledger, risk: Risk.RiskManager)
      ensures this.pair == pair && this.takerRate == takerRate && this.ledger == ledger && this.risk == risk
      ensures lastFundingTs == None
    {
      this.pair, this.takerRate, this.ledger, this.risk := pair, takerRate, ledger, risk;
      lastFundingTs := None;
    }

    /** Charge the funding events of the candle on the position after its fills. */
    method ApplyFunding(c: Candle, points: seq<Point>)
      modifies this`lastFundingTs, ledger
      ensures lastFundingTs == Advanced(old(lastFundingTs), NewEvents(points, old(lastFundingTs), c))
      ensures var events := FundingEvents(old(ledger.Books()), pair, points, old(lastFundingTs), c);
              Processable(true, events) && ledger.Books() == Replay(true, old(ledger.Books()), events)
    {
      var events := NewEvents(points, lastFundingTs, c);
      ghost var b := ledger.Books();
      if events == [] {
        return;
      }
      lastFundingTs := Some(events[|events| - 1].ts);
      var size := PositionOf(ledger.Books(), pair).size;
      if size == 0.0 {
        return;
      }
      PaymentsProcess(events, size, c.close);
      for i := 0 to |events|
        invariant lastFundingTs == Some(events[|events| - 1].ts)
        invariant Processable(true, Payments(events[..i], size, c.close))
        invariant ledger.Books() == Replay(true, b, Payments(events[..i], size, c.close))
      {
        assert events[..i + 1][..i] == events[..i];
        ReplayOneMore(b, Payments(events[..i], size, c.close), Funding(Payment(size, c.close, events[i].body)));
        ledger.ApplyFunding(events[i].ts, Payment(size, c.close, events[i].body));
      }
      assert events[..|events|] == events;
    }

    /** Force-close the whole position at the candle close. */
    method Liquidate(c: Candle, id: OrderId)
      modifies ledger
      ensures var events := LiquidationEvents(old(ledger.Books()), pair, id, c, takerRate);
              Processable(true, events) && ledger.Books() == Replay(true, old(ledger.Books()), events)
      ensures PositionOf(ledger.Books(), pair).size == 0.0
    {
      var size := PositionOf(ledger.Books(), pair).size;
      if size == 0.0 {
        return;
      }
      var f := LiquidationFill(id, pair, size, c, takerRate);
      LiquidationFlattens(ledger.Books(), pair, id, c, takerRate);
      ghost var b := ledger.Books();
      var realized := ledger.ApplyLiquidationFill(f);
      assert [Liquidation(f)][1..] == [];
    }

    /** The end of a perp candle after its fills: funding, then the rail. A run whose equity is
        gone is halted without a position. */
    method CloseCandle(c: Candle, points: seq<Point>, id: OrderId) returns (equity: real)
      modifies this, ledger, risk
      ensures lastFundingTs == Advanced(old(lastFundingTs), NewEvents(points, old(lastFundingTs), c))
      ensures var funding := FundingEvents(old(ledger.Books()), pair, points, old(lastFundingTs), c);
              && Processable(true, funding)
              && var funded := Replay(true, old(ledger.Books()), funding);
                 && equity == EquityOf(funded, map[pair := c.close])
                 && var rail := if equity <= 0.0 then LiquidationEvents(funded, pair, id, c, takerRate) else [];
                    Processable(true, rail) && ledger.Books() == Replay(true, funded, rail)
      ensures var was := old(risk.State());
              risk.State() == if equity <= 0.0 then Risk.Operate(risk.cfg, was, Risk.EngineHalt(LIQUIDATED)) else was
      ensures equity <= 0.0 ==> PositionOf(ledger.Books(), pair).size == 0.0
    {
      ApplyFunding(c, points);
      equity := ledger.Equity(map[pair := c.close]);
      if equity <= 0.0 {
        Liquidate(c, id);
        risk.Halt(LIQUIDATED);
      }
    }
  }
}
