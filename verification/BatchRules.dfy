/** What a batch of intents is granted (kaupo/risk/manager.py:194-364), said of the intents themselves:
    a buy or a sell gets the largest size its limits leave, a perp order the position nearest to the
    one it asks for. The limits are counted from the state and the approvals before it. */
module BatchRules {
  import opened Domain
  import opened Sums
  import opened RiskManager

  function Value(size: real, price: real): real {
    size * price
  }

  function WithCosts(value: real, rate: real): real {
    value * (1.0 + rate)
  }

  /** The intent's own limit price, or else the pair's last price. */
  function PriceAt(i: OrderIntent, st: RiskState): real {
    match i.limitPrice
    case Some(limit) => limit
    case None => if i.pair in st.prices then st.prices[i.pair] else 0.0
  }

  function LastPrice(st: RiskState, pair: Pair): real {
    if pair in st.prices then st.prices[pair] else 0.0
  }

  function HeldOf(st: RiskState, pair: Pair): real {
    if pair in st.positions then st.positions[pair].size else 0.0
  }

  ghost function Exposure(st: RiskState): real {
    Sum(map p | p in st.positions :: Value(st.positions[p].size, LastPrice(st, p)))
  }

  predicate Granted(a: Assessment) {
    a.decision == Approved || a.decision == Resized
  }

  // ----- spot -----

  /** A size this buy could have: no more than asked, inside both caps, and affordable with the
      worst-case costs on top. */
  ghost predicate MayBuy(cfg: RiskConfig, i: OrderIntent, st: RiskState, earlier: seq<Assessment>, s: real) {
    var price := PriceAt(i, st);
    && 0.0 < s <= i.size
    && Value(HeldOf(st, i.pair), price) + PairBuyNotional(earlier, st, i.pair) + Value(s, price) <= cfg.maxPosition
    && Exposure(st) + BuyNotional(earlier, st) + Value(s, price) <= cfg.maxGross
    && WithCosts(Value(s, price), cfg.costRate) <= st.cash - BuyNotional(earlier, st)
  }

  /** A size this sell could have: no more than asked, nor than what is left of the position. */
  predicate MaySell(i: OrderIntent, st: RiskState, earlier: seq<Assessment>, s: real) {
    0.0 < s <= i.size && SellSize(earlier, i.pair) + s <= HeldOf(st, i.pair)
  }

  /** Granted outside a cooldown when some allowed size is worth the minimum order; then it is the
      largest allowed one. */
  ghost predicate BuyJudged(cfg: RiskConfig, cooldown: int, st: RiskState, earlier: seq<Assessment>, a: Assessment) {
    var i, price := a.intent, PriceAt(a.intent, st);
    && (Granted(a) <==>
          cooldown <= 0
          && (cfg.minOrder <= 0.0 || exists s :: MayBuy(cfg, i, st, earlier, s) && Value(s, price) >= cfg.minOrder))
    && (Granted(a) ==>
          && (a.size == 0.0 || MayBuy(cfg, i, st, earlier, a.size))
          && (forall s :: MayBuy(cfg, i, st, earlier, s) ==> s <= a.size)
          && Value(a.size, price) >= cfg.minOrder
          && (a.decision == Resized <==> a.size < i.size * 0.999))
  }

  /** Granted, cooldown or not, when some allowed size is the whole position or worth the minimum
      order; then it is the largest allowed one. */
  ghost predicate SellJudged(cfg: RiskConfig, st: RiskState, earlier: seq<Assessment>, a: Assessment) {
    var i, price := a.intent, PriceAt(a.intent, st);
    && (Granted(a) <==>
          exists s :: MaySell(i, st, earlier, s) && (s >= HeldOf(st, i.pair) || Value(s, price) >= cfg.minOrder))
    && (Granted(a) ==>
          && MaySell(i, st, earlier, a.size)
          && (forall s :: MaySell(i, st, earlier, s) ==> s <= a.size)
          && (a.size >= HeldOf(st, i.pair) || Value(a.size, price) >= cfg.minOrder)
          && (a.decision == Resized <==> a.size < i.size))
  }

  ghost predicate Judged(cfg: RiskConfig, cooldown: int, st: RiskState, earlier: seq<Assessment>, a: Assessment) {
    if PriceAt(a.intent, st) <= 0.0 then !Granted(a)
    else if a.intent.side == Buy then BuyJudged(cfg, cooldown, st, earlier, a)
    else SellJudged(cfg, st, earlier, a)
  }

  lemma QuotientBound(s: real, budget: real, price: real)
    requires price > 0.0
    ensures s <= budget / price <==> Value(s, price) <= budget
  {
    var q := budget / price;
    assert q * price == budget;
    if s <= q {
      TimesMonotone(s, q, price);
    } else {
      assert (s - q) * price > 0.0;
    }
  }

  lemma AffordableMeans(value: real, cash: real, rate: real)
    requires rate > -1.0
    ensures value <= cash / (1.0 + rate) <==> WithCosts(value, rate) <= cash
  {
    QuotientBound(value, cash, 1.0 + rate);
  }

  lemma SameValue(pos: Position, price: real)
    ensures Value(pos.size, price) == Worth(pos, price)
  {}

  /** A value the room takes. */
  lemma RoomMeans(cfg: RiskConfig, held: real, added: real, gross: real, cash: real, value: real)
    requires cfg.costRate > -1.0
    ensures value <= Room(cfg, held, added, gross, cash)
       <==> held + added + value <= cfg.maxPosition && gross + value <= cfg.maxGross
            && WithCosts(value, cfg.costRate) <= cash
  {
    AffordableMeans(value, cash, cfg.costRate);
  }

  lemma ExposureIsGross(st: RiskState)
    ensures Exposure(st) == Gross(st)
  {
    var mine := map p | p in st.positions :: Value(st.positions[p].size, LastPrice(st, p));
    var theirs := map p | p in st.positions :: Worth(st.positions[p], Get(st.prices, p));
    forall p | p in mine ensures mine[p] == theirs[p] {
      SameValue(st.positions[p], LastPrice(st, p));
    }
    assert mine == theirs;
  }

  /** The running batch is what the earlier approvals add up to. */
  ghost predicate Follows(b: Batch, st: RiskState, earlier: seq<Assessment>, pair: Pair) {
    && b.cashLeft == st.cash - BuyNotional(earlier, st)
    && Sum(b.added) == BuyNotional(earlier, st)
    && Get(b.added, pair) == PairBuyNotional(earlier, st, pair)
    && Get(b.sold, pair) == SellSize(earlier, pair)
  }

  /** An allowed size is one within the budget. */
  lemma MayBuyMeans(cfg: RiskConfig, i: OrderIntent, st: RiskState, b: Batch, earlier: seq<Assessment>, s: real)
    requires cfg.costRate > -1.0 && ValidIntent(i) && Follows(b, st, earlier, i.pair)
    ensures MayBuy(cfg, i, st, earlier, s)
       <==> 0.0 < s <= i.size && Value(s, PriceAt(i, st)) <= Budget(cfg, i, st, b)
  {
    var price := PriceAt(i, st);
    ExposureIsGross(st);
    SameValue(PositionIn(st, i.pair), price);
    assert PairExposure(i, st) == Value(HeldOf(st, i.pair), price);
    RoomMeans(cfg, PairExposure(i, st), Get(b.added, i.pair), Gross(st) + Sum(b.added), b.cashLeft, Value(s, price));
  }

  function SizeWithin(i: OrderIntent, price: real, budget: real): real
    requires price > 0.0
  {
    if budget > 0.0 then Min(i.size, budget / price) else 0.0
  }

  lemma LargestInBudget(i: OrderIntent, price: real, budget: real, size: real, s: real)
    requires i.size > 0.0 && price > 0.0
    requires size == SizeWithin(i, price, budget)
    ensures size == 0.0 || (0.0 < size <= i.size && Value(size, price) <= budget)
    ensures 0.0 < s <= i.size && Value(s, price) <= budget ==> s <= size
  {
    QuotientBound(size, budget, price);
    QuotientBound(s, budget, price);
    if budget > 0.0 {
      QuotientPositive(budget, price);
    }
    assert s > 0.0 ==> s * price > 0.0;
  }

  /** What the manager grants a buy, in the terms used here. */
  lemma BuySize(cfg: RiskConfig, cooldown: int, i: OrderIntent, st: RiskState, b: Batch, size: real)
    requires cfg.costRate > -1.0 && ValidIntent(i) && i.side.Buy? && PriceAt(i, st) > 0.0
    requires size == SizeWithin(i, PriceAt(i, st), Budget(cfg, i, st, b))
    ensures AssessOne(cfg, cooldown, i, st, b)
         == if cooldown > 0 || Value(size, PriceAt(i, st)) < cfg.minOrder then Refuse(i)
            else Assessment(i, if size < i.size * 0.999 then Resized else Approved, size)
  {}

  lemma BuyIsJudged(cfg: RiskConfig, cooldown: int, i: OrderIntent, st: RiskState, b: Batch, earlier: seq<Assessment>)
    requires cfg.costRate > -1.0 && ValidIntent(i) && Follows(b, st, earlier, i.pair)
    requires i.side.Buy? && PriceAt(i, st) > 0.0
    ensures BuyJudged(cfg, cooldown, st, earlier, AssessOne(cfg, cooldown, i, st, b))
  {
    var a, price, budget := AssessOne(cfg, cooldown, i, st, b), PriceAt(i, st), Budget(cfg, i, st, b);
    var size := SizeWithin(i, price, budget);
    BuySize(cfg, cooldown, i, st, b, size);
    LargestMayBuy(cfg, i, st, b, earlier, size);
  }

  lemma LargestMayBuy(cfg: RiskConfig, i: OrderIntent, st: RiskState, b: Batch, earlier: seq<Assessment>, size: real)
    requires cfg.costRate > -1.0 && ValidIntent(i) && Follows(b, st, earlier, i.pair) && PriceAt(i, st) > 0.0
    requires size == SizeWithin(i, PriceAt(i, st), Budget(cfg, i, st, b))
    ensures size == 0.0 || MayBuy(cfg, i, st, earlier, size)
    ensures size == 0.0 ==> Value(size, PriceAt(i, st)) == 0.0
    ensures forall s :: MayBuy(cfg, i, st, earlier, s) ==>
        s <= size && Value(s, PriceAt(i, st)) <= Value(size, PriceAt(i, st))
  {
    LargestInBudget(i, PriceAt(i, st), Budget(cfg, i, st, b), size, size);
    MayBuyMeans(cfg, i, st, b, earlier, size);
    forall s | MayBuy(cfg, i, st, earlier, s) {
      NoLarger(cfg, i, st, b, earlier, size, s);
    }
  }

  lemma NoLarger(cfg: RiskConfig, i: OrderIntent, st: RiskState, b: Batch, earlier: seq<Assessment>, size: real,
                 s: real)
    requires cfg.costRate > -1.0 && ValidIntent(i) && Follows(b, st, earlier, i.pair) && PriceAt(i, st) > 0.0
    requires size == SizeWithin(i, PriceAt(i, st), Budget(cfg, i, st, b))
    requires MayBuy(cfg, i, st, earlier, s)
    ensures s <= size && Value(s, PriceAt(i, st)) <= Value(size, PriceAt(i, st))
  {
    MayBuyMeans(cfg, i, st, b, earlier, s);
    LargestInBudget(i, PriceAt(i, st), Budget(cfg, i, st, b), size, s);
    TimesMonotone(s, size, PriceAt(i, st));
  }

  /** What the manager grants a sell, in the terms used here. */
  lemma SellGrant(cfg: RiskConfig, cooldown: int, i: OrderIntent, st: RiskState, b: Batch, size: real)
    requires cfg.costRate > -1.0 && ValidIntent(i) && i.side.Sell? && PriceAt(i, st) > 0.0
    requires size == Min(i.size, HeldOf(st, i.pair) - Get(b.sold, i.pair))
    ensures AssessOne(cfg, cooldown, i, st, b)
         == if size <= 0.0 || (size < HeldOf(st, i.pair) && Value(size, PriceAt(i, st)) < cfg.minOrder) then Refuse(i)
            else Assessment(i, if size < i.size then Resized else Approved, size)
  {}

  lemma SellIsJudged(cfg: RiskConfig, cooldown: int, i: OrderIntent, st: RiskState, b: Batch,
                     earlier: seq<Assessment>)
    requires cfg.costRate > -1.0 && ValidIntent(i) && Follows(b, st, earlier, i.pair)
    requires i.side.Sell? && PriceAt(i, st) > 0.0
    ensures SellJudged(cfg, st, earlier, AssessOne(cfg, cooldown, i, st, b))
  {
    var price := PriceAt(i, st);
    var size := Min(i.size, HeldOf(st, i.pair) - SellSize(earlier, i.pair));
    SellGrant(cfg, cooldown, i, st, b, size);
    LargestMaySell(i, st, earlier, price, size);
  }

  lemma {:induction false} LargestMaySell(i: OrderIntent, st: RiskState, earlier: seq<Assessment>, price: real,
                                          size: real)
    requires price > 0.0 && size == Min(i.size, HeldOf(st, i.pair) - SellSize(earlier, i.pair))
    ensures size > 0.0 ==> MaySell(i, st, earlier, size)
    ensures forall s :: MaySell(i, st, earlier, s) ==> s <= size && Value(s, price) <= Value(size, price)
  {
    forall s | MaySell(i, st, earlier, s) ensures s <= size && Value(s, price) <= Value(size, price) {
      TimesMonotone(s, size, price);
    }
  }

  lemma {:induction false} NextFollows(b: Batch, st: RiskState, earlier: seq<Assessment>, a: Assessment, pair: Pair)
    requires Follows(b, st, earlier, pair)
    ensures Follows(Fold(b, a, st), st, earlier + [a], pair)
  {
    FoldAdds(b, a, st, pair);
    BatchAppend(earlier, a, st, pair);
  }

  lemma {:induction false} BatchAppend(batch: seq<Assessment>, a: Assessment, st: RiskState, pair: Pair)
    ensures var grown, n := batch + [a], Notional(a, st);
            && BuyNotional(grown, st) == BuyNotional(batch, st) + (if Buys(a) then n else 0.0)
            && PairBuyNotional(grown, st, pair)
               == PairBuyNotional(batch, st, pair) + (if Buys(a) && a.intent.pair == pair then n else 0.0)
            && SellSize(grown, pair)
               == SellSize(batch, pair) + (if Sells(a) && a.intent.pair == pair then a.size else 0.0)
  {
    if batch == [] {
      assert batch + [a] == [a] && [a][1..] == [];
    } else {
      assert (batch + [a])[1..] == batch[1..] + [a];
      BatchAppend(batch[1..], a, st, pair);
    }
  }

  lemma {:induction false} JudgedFrom(cfg: RiskConfig, cooldown: int, intents: seq<OrderIntent>, st: RiskState,
                                      b: Batch, earlier: seq<Assessment>, k: nat)
    requires cfg.costRate > -1.0 && ValidIntents(intents) && k < |intents|
    requires forall pair :: Follows(b, st, earlier, pair)
    ensures var batch := AssessFrom(cfg, cooldown, intents, st, b);
            && |batch| == |intents| && batch[k].intent == intents[k]
            && Judged(cfg, cooldown, st, earlier + batch[..k], batch[k])
    decreases |intents|
  {
    assert intents[0] in intents;
    var a := AssessOne(cfg, cooldown, intents[0], st, b);
    var rest := AssessFrom(cfg, cooldown, intents[1..], st, Fold(b, a, st));
    BatchLength(cfg, cooldown, intents[1..], st, Fold(b, a, st));
    if k == 0 {
      FirstIsJudged(cfg, cooldown, intents[0], st, b, earlier);
      assert earlier + ([a] + rest)[..0] == earlier;
    } else {
      forall pair ensures Follows(Fold(b, a, st), st, earlier + [a], pair) {
        NextFollows(b, st, earlier, a, pair);
      }
      JudgedFrom(cfg, cooldown, intents[1..], st, Fold(b, a, st), earlier + [a], k - 1);
      assert earlier + ([a] + rest)[..k] == earlier + [a] + rest[..k - 1];
    }
  }

  lemma {:induction false} BatchLength(cfg: RiskConfig, cooldown: int, intents: seq<OrderIntent>, st: RiskState,
                                       b: Batch)
    requires cfg.costRate != -1.0
    ensures |AssessFrom(cfg, cooldown, intents, st, b)| == |intents|
    decreases |intents|
  {
    if intents != [] {
      BatchLength(cfg, cooldown, intents[1..], st, Fold(b, AssessOne(cfg, cooldown, intents[0], st, b), st));
    }
  }

  lemma FirstIsJudged(cfg: RiskConfig, cooldown: int, i: OrderIntent, st: RiskState, b: Batch,
                      earlier: seq<Assessment>)
    requires cfg.costRate > -1.0 && ValidIntent(i) && Follows(b, st, earlier, i.pair)
    ensures var a := AssessOne(cfg, cooldown, i, st, b);
            a.intent == i && Judged(cfg, cooldown, st, earlier, a)
  {
    if PriceAt(i, st) > 0.0 {
      if i.side.Buy? {
        BuyIsJudged(cfg, cooldown, i, st, b, earlier);
      } else {
        SellIsJudged(cfg, cooldown, i, st, b, earlier);
      }
    }
  }

  /** Every intent of a spot batch gets the largest size that its own request, the caps, the cash and
      the position leave after the approvals before it, and is refused exactly when no such size is
      worth the minimum order (a full exit always is) or, for a buy, during a cooldown. */
  lemma LargestAllowedSize(cfg: RiskConfig, cooldown: int, intents: seq<OrderIntent>, st: RiskState, k: nat)
    requires cfg.costRate > -1.0 && ValidIntents(intents) && k < |intents|
    ensures var batch := AssessSpot(cfg, cooldown, intents, st);
            && |batch| == |intents| && batch[k].intent == intents[k]
            && Judged(cfg, cooldown, st, batch[..k], batch[k])
  {
    SumEmpty();
    forall pair ensures Follows(Batch(st.cash, map[], map[]), st, [], pair) {}
    JudgedFrom(cfg, cooldown, intents, st, Batch(st.cash, map[], map[]), [], k);
    var batch := AssessSpot(cfg, cooldown, intents, st);
    assert [] + batch[..k] == batch[..k];
  }

  lemma SumEmpty()
    ensures Sum<Pair>(map[]) == 0.0
  {}

  // ----- perp -----

  function SignedBy(side: Side, size: real): real {
    if side == Sell then 0.0 - size else size
  }

  /** What the approvals so far add to one pair, bought less sold. */
  function Added(batch: seq<Assessment>, pair: Pair): real {
    if batch == [] then 0.0
    else (if Granted(batch[0]) && batch[0].intent.pair == pair then SignedBy(batch[0].intent.side, batch[0].size)
          else 0.0)
         + Added(batch[1..], pair)
  }

  lemma {:induction false} AfterAdds(sizes: map<Pair, real>, batch: seq<Assessment>, pair: Pair)
    ensures Get(After(sizes, batch), pair) == Get(sizes, pair) + Added(batch, pair)
    decreases |batch|
  {
    if batch != [] {
      AfterAdds(FoldPerp(sizes, batch[0]), batch[1..], pair);
    }
  }

  /** What the other pairs' signed sizes leave of the gross cap, inside the pair's own. */
  ghost function QuoteCap(cfg: RiskConfig, sizes: map<Pair, real>, st: RiskState, pair: Pair): real {
    var others := Sum(map p | p in sizes && p != pair :: Value(Abs(sizes[p]), LastPrice(st, p)));
    var left := if cfg.maxGross - others < cfg.maxPosition then cfg.maxGross - others else cfg.maxPosition;
    if left > 0.0 then left else 0.0
  }

  /** Of all sizes inside the cap, the one nearest to what is asked for. */
  ghost predicate Nearest(cap: real, price: real, asked: real, x: real) {
    && Value(Abs(x), price) <= cap
    && forall y :: Value(Abs(y), price) <= cap ==> Abs(x - asked) <= Abs(y - asked)
  }

  /** Granted when `x` lies the intent's way, grows nothing in a cooldown, and is flat or worth the
      minimum order away; the order is exactly the way there. */
  predicate Takes(cfg: RiskConfig, cooldown: int, price: real, current: real, a: Assessment, x: real) {
    && (Granted(a) <==>
          && (if a.intent.side == Buy then x > current else x < current)
          && (cooldown > 0 ==> Abs(x) <= Abs(current) + 0.000000000001)
          && (x == 0.0 || Value(Abs(x - current), price) >= cfg.minOrder))
    && (Granted(a) ==>
          && current + SignedBy(a.intent.side, a.size) == x
          && (a.decision == Resized <==> a.size < a.intent.size * 0.999))
  }

  function SizeIn(sizes: map<Pair, real>, pair: Pair): real {
    if pair in sizes then sizes[pair] else 0.0
  }

  /** The intent is taken to the nearest size inside the cap, or refused on the way. */
  ghost predicate TakenNearest(cfg: RiskConfig, cooldown: int, cap: real, price: real, current: real, a: Assessment) {
    exists x :: Nearest(cap, price, current + SignedBy(a.intent.side, a.intent.size), x)
                && Takes(cfg, cooldown, price, current, a, x)
  }

  ghost predicate PerpJudged(cfg: RiskConfig, cooldown: int, st: RiskState, sizes: map<Pair, real>, a: Assessment) {
    var pair, price := a.intent.pair, PriceAt(a.intent, st);
    if price <= 0.0 then !Granted(a)
    else TakenNearest(cfg, cooldown, QuoteCap(cfg, sizes, st, pair), price, SizeIn(sizes, pair), a)
  }

  lemma CapMeans(cap: real, price: real, y: real)
    requires cap >= 0.0 && price > 0.0
    ensures Value(Abs(y), price) <= cap <==> -(cap / price) <= y <= cap / price
  {
    QuotientBound(Abs(y), cap, price);
  }

  lemma ClampedIsNearest(cap: real, price: real, current: real, delta: real)
    requires cap >= 0.0 && price > 0.0
    ensures Nearest(cap, price, current + delta, current + Clamped(delta, current, cap / price))
  {
    var bound, x := cap / price, current + Clamped(delta, current, cap / price);
    QuotientBound(0.0, cap, price);
    CapMeans(cap, price, x);
    forall y | Value(Abs(y), price) <= cap ensures Abs(x - (current + delta)) <= Abs(y - (current + delta)) {
      CapMeans(cap, price, y);
    }
  }

  lemma SameMagnitude(size: real, price: real)
    ensures Value(Abs(size), price) == Magnitude(size, price)
  {}

  lemma CapsAgree(cfg: RiskConfig, i: OrderIntent, st: RiskState, sizes: map<Pair, real>)
    ensures QuoteCap(cfg, sizes, st, i.pair) == Max(CapQuote(cfg, i, st, sizes), 0.0)
  {
    var others := sizes - {i.pair};
    var mine := map p | p in sizes && p != i.pair :: Value(Abs(sizes[p]), LastPrice(st, p));
    var theirs := map p | p in others :: Magnitude(others[p], Get(st.prices, p));
    assert mine.Keys == theirs.Keys;
    forall p | p in mine ensures mine[p] == theirs[p] {
      SameMagnitude(sizes[p], LastPrice(st, p));
    }
    assert mine == theirs;
  }

  /** What the manager grants a perp intent that leads from `current` to `x`. */
  lemma PerpSize(cfg: RiskConfig, cooldown: int, i: OrderIntent, price: real, current: real, capQuote: real, x: real)
    requires ValidIntent(i) && price > 0.0
    requires x == current + Clamped(SignedBy(i.side, i.size), current, CapSize(capQuote, price))
    ensures var a := SizePerp(cfg, cooldown, i, price, current, capQuote);
            a.intent == i && Takes(cfg, cooldown, price, current, a, x)
  {
    var d := Clamped(SignedBy(i.side, i.size), current, CapSize(capQuote, price));
    assert x - current == d && Value(Abs(d), price) == Abs(d) * price;
  }

  lemma SizePerpJudged(cfg: RiskConfig, cooldown: int, i: OrderIntent, price: real, current: real, capQuote: real)
    requires ValidIntent(i) && price > 0.0
    ensures var a := SizePerp(cfg, cooldown, i, price, current, capQuote);
            a.intent == i && TakenNearest(cfg, cooldown, Max(capQuote, 0.0), price, current, a)
  {
    var x := current + Clamped(SignedBy(i.side, i.size), current, CapSize(capQuote, price));
    ClampedIsNearest(Max(capQuote, 0.0), price, current, SignedBy(i.side, i.size));
    PerpSize(cfg, cooldown, i, price, current, capQuote, x);
  }

  lemma PerpIsJudged(cfg: RiskConfig, cooldown: int, i: OrderIntent, st: RiskState, sizes: map<Pair, real>)
    requires ValidIntent(i)
    ensures var a := AssessPerpOne(cfg, cooldown, i, st, sizes);
            a.intent == i && PerpJudged(cfg, cooldown, st, sizes, a)
  {
    if PriceAt(i, st) > 0.0 {
      CapsAgree(cfg, i, st, sizes);
      SizePerpJudged(cfg, cooldown, i, PriceAt(i, st), Get(sizes, i.pair), CapQuote(cfg, i, st, sizes));
    }
  }

  lemma {:induction false} PerpJudgedFrom(cfg: RiskConfig, cooldown: int, intents: seq<OrderIntent>, st: RiskState,
                                          sizes: map<Pair, real>, k: nat)
    requires ValidIntents(intents) && k < |intents|
    ensures var batch := AssessPerpFrom(cfg, cooldown, intents, st, sizes);
            && |batch| == |intents| && batch[k].intent == intents[k]
            && PerpJudged(cfg, cooldown, st, After(sizes, batch[..k]), batch[k])
    decreases |intents|
  {
    assert intents[0] in intents;
    var a := AssessPerpOne(cfg, cooldown, intents[0], st, sizes);
    var rest := AssessPerpFrom(cfg, cooldown, intents[1..], st, FoldPerp(sizes, a));
    PerpLength(cfg, cooldown, intents[1..], st, FoldPerp(sizes, a));
    if k == 0 {
      PerpIsJudged(cfg, cooldown, intents[0], st, sizes);
      assert ([a] + rest)[..0] == [];
    } else {
      PerpJudgedFrom(cfg, cooldown, intents[1..], st, FoldPerp(sizes, a), k - 1);
      assert ([a] + rest)[..k] == [a] + rest[..k - 1];
      assert ([a] + rest[..k - 1])[1..] == rest[..k - 1];
    }
  }

  lemma {:induction false} PerpLength(cfg: RiskConfig, cooldown: int, intents: seq<OrderIntent>, st: RiskState,
                                      sizes: map<Pair, real>)
    ensures |AssessPerpFrom(cfg, cooldown, intents, st, sizes)| == |intents|
    decreases |intents|
  {
    if intents != [] {
      PerpLength(cfg, cooldown, intents[1..], st, FoldPerp(sizes, AssessPerpOne(cfg, cooldown, intents[0], st, sizes)));
    }
  }

  /** Every intent of a perp batch is taken to the position nearest to the one it asks for inside the
      caps, counted from the position and the approvals before it, or refused exactly as stated. */
  lemma {:induction false} NearestAllowedPosition(cfg: RiskConfig, cooldown: int, intents: seq<OrderIntent>,
                                                  st: RiskState, k: nat)
    requires ValidIntents(intents) && k < |intents|
    ensures var batch := AssessPerpFrom(cfg, cooldown, intents, st, SizesOf(st));
            && |batch| == |intents| && batch[k].intent == intents[k]
            && PerpJudged(cfg, cooldown, st, After(SizesOf(st), batch[..k]), batch[k])
            && (forall p :: SizeIn(After(SizesOf(st), batch[..k]), p) == HeldOf(st, p) + Added(batch[..k], p))
  {
    PerpJudgedFrom(cfg, cooldown, intents, st, SizesOf(st), k);
    forall p {
      AfterIsAdded(st, AssessPerpFrom(cfg, cooldown, intents, st, SizesOf(st))[..k], p);
    }
  }

  lemma {:induction false} AfterIsAdded(st: RiskState, batch: seq<Assessment>, p: Pair)
    ensures SizeIn(After(SizesOf(st), batch), p) == HeldOf(st, p) + Added(batch, p)
  {
    AfterAdds(SizesOf(st), batch, p);
  }

  /** An order may be larger than the intent: exactly when the position was over the cap on the other
      side and the intent would have left it there. */
  lemma LargerThanAsked(cfg: RiskConfig, cooldown: int, st: RiskState, sizes: map<Pair, real>, a: Assessment)
    requires ValidIntent(a.intent) && PriceAt(a.intent, st) > 0.0
    requires Granted(a) && PerpJudged(cfg, cooldown, st, sizes, a)
    ensures var cap, price := QuoteCap(cfg, sizes, st, a.intent.pair), PriceAt(a.intent, st);
            var asked := SizeIn(sizes, a.intent.pair) + SignedBy(a.intent.side, a.intent.size);
            (a.size > a.intent.size
             <==> if a.intent.side == Buy then Value(asked, price) < -cap else Value(asked, price) > cap)
  {
    Overshoots(cfg, cooldown, QuoteCap(cfg, sizes, st, a.intent.pair), PriceAt(a.intent, st),
               SizeIn(sizes, a.intent.pair), a);
  }

  lemma Overshoots(cfg: RiskConfig, cooldown: int, cap: real, price: real, current: real, a: Assessment)
    requires cap >= 0.0 && price > 0.0 && Granted(a) && TakenNearest(cfg, cooldown, cap, price, current, a)
    ensures var asked := current + SignedBy(a.intent.side, a.intent.size);
            (a.size > a.intent.size
             <==> if a.intent.side == Buy then Value(asked, price) < -cap else Value(asked, price) > cap)
  {
    var asked := current + SignedBy(a.intent.side, a.intent.size);
    var x :| Nearest(cap, price, asked, x) && Takes(cfg, cooldown, price, current, a, x);
    NearestIs(cap, price, asked, x);
    BeyondCap(cap, price, asked);
  }

  /** The price of a short of 10 has risen to 100, over a cap of 500: an intent to buy 1 back buys 5. */
  lemma {:induction false} BuysFiveForOne(st: RiskState, btc: Pair)
    requires st == RiskState(0, 0.0, map[btc := Position(-10.0, 40.0, None)], map[btc := 100.0])
    ensures var cfg := RiskConfig(500.0, 2000.0, 100.0, 10.0, 3, 5, true, 0.0);
            var i := OrderIntent(btc, Buy, 1.0, None, None, None);
            AssessPerpFrom(cfg, 0, [i], st, SizesOf(st)) == [Assessment(i, Approved, 5.0)]
  {
    var cfg := RiskConfig(500.0, 2000.0, 100.0, 10.0, 3, 5, true, 0.0);
    var sizes := SizesOf(st);
    assert sizes - {btc} == map[];
    assert GrossOf(map[], st) == 0.0;
    assert Clamped(1.0, -10.0, 5.0) == 5.0;
  }

  lemma BeyondCap(cap: real, price: real, asked: real)
    requires price > 0.0
    ensures asked > cap / price <==> Value(asked, price) > cap
    ensures asked < -(cap / price) <==> Value(asked, price) < -cap
  {
    QuotientBound(asked, cap, price);
    QuotientBound(-asked, cap, price);
    assert Value(-asked, price) == -Value(asked, price);
  }

  /** The nearest size inside the cap: what is asked for, or the bound on its side. */
  lemma NearestIs(cap: real, price: real, asked: real, x: real)
    requires cap >= 0.0 && price > 0.0 && Nearest(cap, price, asked, x)
    ensures x == if asked > cap / price then cap / price else if asked < -(cap / price) then -(cap / price) else asked
  {
    var bound := cap / price;
    QuotientPositiveOrZero(cap, price);
    CapMeans(cap, price, x);
    var best := if asked > bound then bound else if asked < -bound then -bound else asked;
    CapMeans(cap, price, best);
    assert Abs(x - asked) <= Abs(best - asked);
  }

  lemma QuotientPositiveOrZero(cap: real, price: real)
    requires cap >= 0.0 && price > 0.0
    ensures cap / price >= 0.0
  {
    QuotientBound(0.0, cap, price);
  }
}
