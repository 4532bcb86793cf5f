/** What a candle's fills cost: prices, slippage and fees, told from the candle and the order alone
    (kaupo/venues/paper.py). */
module FillPrices {
  import opened Domain
  import opened Accounting
  import opened PaperVenue

  /** Slippage never helps and is at most everything. */
  predicate FairSlip(cfg: VenueConfig) {
    0.0 <= cfg.slip < 1.0
  }

  /** A taker trade around `ref`: worse than it by exactly the slippage, with the taker fee. */
  predicate TakenAt(cfg: VenueConfig, f: Fill, ref: real) {
    && (if f.side.Buy? then f.price >= ref else f.price <= ref)
    && Abs(f.price - ref) == ref * cfg.slip
    && f.fee == f.price * f.size * cfg.taker && f.tier == Some(Taker)
  }

  /** The fill of this order on this candle, whatever its price. */
  predicate Answers(f: Fill, o: Order, c: Candle) {
    f.orderId == o.id && f.pair == o.pair && f.side == o.side && f.size == o.size && f.ts == c.ts
  }

  // ----- market orders -----

  /** The market fill of an order: taken at the open. */
  predicate FilledAtOpen(cfg: VenueConfig, f: Fill, o: Order, c: Candle) {
    Answers(f, o, c) && TakenAt(cfg, f, c.open)
  }

  lemma OneMarketFill(cfg: VenueConfig, o: Order, c: Candle)
    requires FairSlip(cfg) && c.open > 0.0
    ensures FilledAtOpen(cfg, FillMarket(cfg, o, c), o, c)
  {
    SlippedBy(cfg, c.open, o.side);
  }

  lemma {:induction false} MarketPhaseFills(cfg: VenueConfig, pr: Progress, queue: seq<Order>, c: Candle)
    requires FairSlip(cfg) && c.open > 0.0
    ensures var fills := MarketPhase(cfg, pr, queue, c).fills;
            && |fills| == |pr.fills| + |queue| && fills[..|pr.fills|] == pr.fills
            && (forall k :: 0 <= k < |queue| ==> FilledAtOpen(cfg, fills[|pr.fills| + k], queue[k], c))
    decreases |queue|
  {
    if queue != [] {
      var next, rest := MarketStep(cfg, pr, queue[0], c), queue[1..];
      OneMarketFill(cfg, queue[0], c);
      MarketPhaseFills(cfg, next, rest, c);
      var fills := MarketPhase(cfg, pr, queue, c).fills;
      assert fills[..|pr.fills|] == fills[..|next.fills|][..|pr.fills|];
      forall k | 0 <= k < |queue| ensures FilledAtOpen(cfg, fills[|pr.fills| + k], queue[k], c) {
        if k == 0 {
          assert fills[|pr.fills|] == fills[..|next.fills|][|pr.fills|];
        } else {
          assert queue[k] == rest[k - 1];
        }
      }
    }
  }

  lemma SlippedBy(cfg: VenueConfig, price: real, side: Side)
    requires FairSlip(cfg) && price > 0.0
    ensures var paid := Slipped(cfg, price, side);
            (if side.Buy? then paid >= price else paid <= price) && Abs(paid - price) == price * cfg.slip
  {
    assert price * cfg.slip >= 0.0;
    assert price * (1.0 + cfg.slip) == price + price * cfg.slip;
    assert price * (1.0 - cfg.slip) == price - price * cfg.slip;
  }

  lemma {:induction false} LimitPhaseAppends(cfg: VenueConfig, pr: Progress, queue: seq<Order>, c: Candle)
    ensures pr.fills <= LimitPhase(cfg, pr, queue, c).fills
    decreases |queue|
  {
    if queue != [] {
      LimitPhaseAppends(cfg, LimitStep(cfg, pr, queue[0], c), queue[1..], c);
    }
  }

  lemma {:induction false} SweepAppends(cfg: VenueConfig, s: Sweep, ps: seq<Protection>, c: Candle)
    ensures s.progress.fills <= ProtectionPhase(cfg, s, ps, c).progress.fills
    decreases |ps|
  {
    if ps != [] {
      SweepAppends(cfg, ProtectionStep(cfg, s, ps[0], c), ps[1..], c);
    }
  }

  /** The candle's first fills answer the waiting market orders, one each and in order: a buy pays
      the open plus exactly the slippage, a sell gets the open less exactly the slippage, and each
      pays the taker fee on what it moved. */
  lemma MarketFillsAtOpen(cfg: VenueConfig, v: VenueState, c: Candle, k: nat)
    requires FairSlip(cfg) && c.open > 0.0 && k < |v.marketQueue|
    ensures var fills := OnCandle(cfg, v, c).fills;
            k < |fills| && FilledAtOpen(cfg, fills[k], v.marketQueue[k], c)
  {
    var start := Progress(PruneOrders(v).(marketQueue := []), []);
    MarketPhaseFills(cfg, start, v.marketQueue, c);
    var market := MarketPhase(cfg, start, v.marketQueue, c);
    LimitPhaseAppends(cfg, market.(venue := market.venue.(limitOpen := [])), v.limitOpen, c);
    var own := OwnPhase(cfg, v, c);
    SweepAppends(cfg, Sweep(own, []), own.venue.protections, c);
    assert market.fills[k] == own.fills[k] == OnCandle(cfg, v, c).fills[k];
  }

  /** In and out at one open loses twice the slippage and both fees, and nothing else. */
  lemma RoundTripCost(cfg: VenueConfig, v: VenueState, c: Candle, k: nat, j: nat)
    requires FairSlip(cfg) && c.open > 0.0 && k < |v.marketQueue| && j < |v.marketQueue|
    requires v.marketQueue[k].side.Buy? && v.marketQueue[j].side.Sell?
    requires v.marketQueue[k].size == v.marketQueue[j].size
    ensures var fills := OnCandle(cfg, v, c).fills;
            && k < |fills| && j < |fills|
            && CashDelta(fills[k]) + CashDelta(fills[j])
               == -(2.0 * (c.open * cfg.slip) * v.marketQueue[k].size) - fills[k].fee - fills[j].fee
  {
    MarketFillsAtOpen(cfg, v, c, k);
    MarketFillsAtOpen(cfg, v, c, j);
    BothWays(cfg, OnCandle(cfg, v, c).fills[k], OnCandle(cfg, v, c).fills[j], v.marketQueue[k], v.marketQueue[j], c);
  }

  lemma BothWays(cfg: VenueConfig, f: Fill, g: Fill, bought: Order, sold: Order, c: Candle)
    requires FilledAtOpen(cfg, f, bought, c) && FilledAtOpen(cfg, g, sold, c)
    requires bought.side.Buy? && sold.side.Sell? && bought.size == sold.size
    ensures CashDelta(f) + CashDelta(g) == -(2.0 * (c.open * cfg.slip) * bought.size) - f.fee - g.fee
  {
    SpreadCost(f.price, g.price, c.open * cfg.slip, c.open, f.size);
  }

  lemma SpreadCost(paid: real, got: real, slip: real, open: real, size: real)
    requires paid == open + slip && got == open - slip
    ensures got * size - paid * size == -(2.0 * slip * size)
  {
    assert paid * size == open * size + slip * size;
    assert got * size == open * size - slip * size;
  }

  // ----- limit orders -----

  /** A limit that fills answers its order at the better of its price and the open, as maker, or as
      taker where the mode says so for one that was marketable when posted. */
  predicate FilledLimit(cfg: VenueConfig, f: Fill, o: Order, c: Candle) {
    && o.limitPrice.Some? && Answers(f, o, c)
    && (if o.side.Buy? then f.price <= o.limitPrice.value && f.price <= c.open
        else f.price >= o.limitPrice.value && f.price >= c.open)
    && (f.price == o.limitPrice.value || f.price == c.open)
    && var marketable := if o.side.Buy? then o.limitPrice.value >= c.open else o.limitPrice.value <= c.open;
       var taker := cfg.mode.AsTaker? && marketable;
       && f.fee == f.price * f.size * (if taker then cfg.taker else cfg.maker)
       && f.tier == Some(if taker then Taker else Maker)
       && !(cfg.mode.Skip? && marketable)
  }

  /** When a limit fills at all: the candle follows its decision at once and trades through its
      price, and the mode does not skip it. */
  predicate LimitTouched(cfg: VenueConfig, o: Order, c: Candle) {
    && o.limitPrice.Some? && c.ts <= o.createdTs + c.seconds
    && (if o.side.Buy? then c.low <= o.limitPrice.value else c.high >= o.limitPrice.value)
    && !(cfg.mode.Skip? && (if o.side.Buy? then o.limitPrice.value >= c.open else o.limitPrice.value <= c.open))
  }

  lemma LimitIsPriced(cfg: VenueConfig, o: Order, c: Candle)
    ensures LimitOutcome(cfg, o, c).Some? <==> LimitTouched(cfg, o, c)
    ensures LimitOutcome(cfg, o, c).Some? ==> FilledLimit(cfg, LimitOutcome(cfg, o, c).value, o, c)
  {}

  /** The touched limits of a queue, in order. */
  function Touched(cfg: VenueConfig, queue: seq<Order>, c: Candle): seq<Order> {
    if queue == [] then []
    else (if LimitTouched(cfg, queue[0], c) then [queue[0]] else []) + Touched(cfg, queue[1..], c)
  }

  lemma {:induction false} LimitPhaseFills(cfg: VenueConfig, pr: Progress, queue: seq<Order>, c: Candle)
    ensures var fills, touched := LimitPhase(cfg, pr, queue, c).fills, Touched(cfg, queue, c);
            && |fills| == |pr.fills| + |touched| && fills[..|pr.fills|] == pr.fills
            && (forall k :: 0 <= k < |touched| ==> FilledLimit(cfg, fills[|pr.fills| + k], touched[k], c))
    decreases |queue|
  {
    if queue != [] {
      var next, rest := LimitStep(cfg, pr, queue[0], c), queue[1..];
      LimitIsPriced(cfg, queue[0], c);
      LimitPhaseFills(cfg, next, rest, c);
      var fills := LimitPhase(cfg, pr, queue, c).fills;
      if LimitTouched(cfg, queue[0], c) {
        assert fills[|pr.fills|] == fills[..|next.fills|][|pr.fills|];
        assert fills[..|pr.fills|] == fills[..|next.fills|][..|pr.fills|];
      }
    }
  }

  /** After the market fills come the touched limits, one fill each and in order. */
  lemma {:induction false} LimitFillsArePriced(cfg: VenueConfig, v: VenueState, c: Candle, k: nat)
    requires FairSlip(cfg) && c.open > 0.0 && k < |Touched(cfg, v.limitOpen, c)|
    ensures var fills, n := OnCandle(cfg, v, c).fills, |v.marketQueue|;
            n + k < |fills| && FilledLimit(cfg, fills[n + k], Touched(cfg, v.limitOpen, c)[k], c)
    ensures |OwnPhase(cfg, v, c).fills| == |v.marketQueue| + |Touched(cfg, v.limitOpen, c)|
  {
    var start := Progress(PruneOrders(v).(marketQueue := []), []);
    MarketPhaseFills(cfg, start, v.marketQueue, c);
    var market := MarketPhase(cfg, start, v.marketQueue, c);
    LimitPhaseFills(cfg, market.(venue := market.venue.(limitOpen := [])), v.limitOpen, c);
    var own := OwnPhase(cfg, v, c);
    SweepAppends(cfg, Sweep(own, []), own.venue.protections, c);
    assert own.fills[|v.marketQueue| + k] == OnCandle(cfg, v, c).fills[|v.marketQueue| + k];
  }

  // ----- exits -----

  predicate StopHit(p: Protection, c: Candle) {
    p.stopLoss.Some? && c.low <= p.stopLoss.value
  }

  predicate ProfitHit(p: Protection, c: Candle) {
    p.takeProfit.Some? && c.high >= p.takeProfit.value
  }

  /** The exit of a protected long entry: a stop is taken at the worse of its price and the open,
      less the slippage, and goes first; a profit is made at the better of its price and the open. */
  predicate PricedExit(cfg: VenueConfig, p: Protection, f: Fill, c: Candle) {
    && f.side.Sell? && f.pair == p.entry.pair && f.ts == c.ts && f.size <= p.entry.size
    && if StopHit(p, c) then TakenAt(cfg, f, if c.open < p.stopLoss.value then c.open else p.stopLoss.value)
       else
         && ProfitHit(p, c) && f.price == (if c.open > p.takeProfit.value then c.open else p.takeProfit.value)
         && f.fee == f.price * f.size * cfg.maker && f.tier == Some(Maker)
  }

  /** Protections as the venue arms them: of bought entries, with a positive stop. */
  predicate Sensible(p: Protection) {
    p.entry.side.Buy? && (p.stopLoss.Some? ==> p.stopLoss.value > 0.0)
  }

  /** A protection fires exactly when the candle reaches its stop or its profit. */
  lemma ExitIsPriced(cfg: VenueConfig, v: VenueState, p: Protection, c: Candle)
    requires FairSlip(cfg) && c.open > 0.0 && Sensible(p)
    ensures CheckProtection(cfg, v, p, c).Some? <==> StopHit(p, c) || ProfitHit(p, c)
    ensures CheckProtection(cfg, v, p, c).Some? ==> PricedExit(cfg, p, CheckProtection(cfg, v, p, c).value, c)
  {
    if StopHit(p, c) {
      SlippedBy(cfg, Min(p.stopLoss.value, c.open), Sell);
    }
  }

  /** Every exit of a sweep is priced by a protection of the list. */
  lemma {:induction false} SweepIsPriced(cfg: VenueConfig, s: Sweep, ps: seq<Protection>, c: Candle, k: nat)
    requires FairSlip(cfg) && c.open > 0.0 && forall p :: p in ps ==> Sensible(p)
    requires |s.progress.fills| <= k < |ProtectionPhase(cfg, s, ps, c).progress.fills|
    ensures exists p :: p in ps && PricedExit(cfg, p, ProtectionPhase(cfg, s, ps, c).progress.fills[k], c)
    decreases |ps|
  {
    if ps != [] {
      var next, rest := ProtectionStep(cfg, s, ps[0], c), ps[1..];
      var fills := ProtectionPhase(cfg, s, ps, c).progress.fills;
      assert ps[0] in ps;
      ExitIsPriced(cfg, s.progress.venue, ps[0], c);
      if k < |next.progress.fills| {
        SweepAppends(cfg, next, rest, c);
        assert fills[k] == next.progress.fills[k];
        assert PricedExit(cfg, ps[0], fills[k], c);
      } else {
        SweepIsPriced(cfg, next, rest, c, k);
        var p :| p in rest && PricedExit(cfg, p, fills[k], c);
        assert p in ps;
      }
    }
  }

  /** Behind the candle's own fills come exits only, each priced by an armed protection. */
  lemma ExitsArePriced(cfg: VenueConfig, v: VenueState, c: Candle, k: nat)
    requires FairSlip(cfg) && c.open > 0.0 && forall p :: p in v.protections ==> Sensible(p)
    requires |OwnPhase(cfg, v, c).fills| <= k < |OnCandle(cfg, v, c).fills|
    ensures exists p :: p in v.protections && PricedExit(cfg, p, OnCandle(cfg, v, c).fills[k], c)
  {
    var own := OwnPhase(cfg, v, c);
    OwnKeepsProtections(cfg, v, c);
    SweepIsPriced(cfg, Sweep(own, []), own.venue.protections, c, k);
  }

  lemma {:induction false} MarketKeepsProtections(cfg: VenueConfig, pr: Progress, queue: seq<Order>, c: Candle)
    ensures forall p :: p in MarketPhase(cfg, pr, queue, c).venue.protections ==> p in pr.venue.protections
    decreases |queue|
  {
    if queue != [] {
      FillKeepsProtections(pr.venue, queue[0], FillMarket(cfg, queue[0], c));
      MarketKeepsProtections(cfg, MarketStep(cfg, pr, queue[0], c), queue[1..], c);
    }
  }

  lemma {:induction false} LimitKeepsProtections(cfg: VenueConfig, pr: Progress, queue: seq<Order>, c: Candle)
    ensures forall p :: p in LimitPhase(cfg, pr, queue, c).venue.protections ==> p in pr.venue.protections
    decreases |queue|
  {
    if queue != [] {
      if LimitOutcome(cfg, queue[0], c).Some? {
        FillKeepsProtections(pr.venue, queue[0], LimitOutcome(cfg, queue[0], c).value);
      }
      LimitKeepsProtections(cfg, LimitStep(cfg, pr, queue[0], c), queue[1..], c);
    }
  }

  lemma FillKeepsProtections(v: VenueState, o: Order, f: Fill)
    ensures forall p :: p in FillOrder(v, o, f).protections ==> p in v.protections
  {
    forall p ensures p in OtherPairs(v.protections, f.pair) ==> p in v.protections {
      OtherPairsAre(v.protections, f.pair, p);
    }
  }

  lemma OwnKeepsProtections(cfg: VenueConfig, v: VenueState, c: Candle)
    ensures forall p :: p in OwnPhase(cfg, v, c).venue.protections ==> p in v.protections
  {
    var start := Progress(PruneOrders(v).(marketQueue := []), []);
    MarketKeepsProtections(cfg, start, v.marketQueue, c);
    var market := MarketPhase(cfg, start, v.marketQueue, c);
    LimitKeepsProtections(cfg, market.(venue := market.venue.(limitOpen := [])), v.limitOpen, c);
  }

  // ----- close-outs -----

  /** A close-out is taken around the close. */
  lemma CloseOutIsPriced(cfg: VenueConfig, v: VenueState, pair: Pair, size: real, c: Candle)
    requires FairSlip(cfg) && c.close > 0.0
    ensures TakenAt(cfg, Liquidate(cfg, v, pair, size, c).1, c.close)
    ensures Liquidate(cfg, v, pair, size, c).1.ts == c.ts && Liquidate(cfg, v, pair, size, c).1.pair == pair
  {
    SlippedBy(cfg, c.close, LiquidationOrder(v, pair, size, c).side);
  }
}
