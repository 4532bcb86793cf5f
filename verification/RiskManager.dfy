/** Hard trading guardrails, independent of strategy code (kaupo/risk/manager.py). */
module RiskManager {
  import opened Domain
  import opened Sums

  datatype RiskConfig = RiskConfig(maxPosition: real, maxGross: real, maxDailyLoss: real, minOrder: real,
                                   maxConsecutiveLosses: int, cooldownCandles: int, perp: bool, costRate: real)

  /** What the manager sees: the UTC day, the books and the last known prices. */
  datatype RiskState = RiskState(day: int, cash: real, positions: map<Pair, Position>, prices: map<Pair, real>)

  datatype Decision = Approved | Resized | Refused

  datatype Assessment = Assessment(intent: OrderIntent, decision: Decision, size: real)

  function PositionIn(st: RiskState, pair: Pair): Position {
    if pair in st.positions then st.positions[pair] else FLAT
  }

  function Get(m: map<Pair, real>, pair: Pair): real {
    if pair in m then m[pair] else 0.0
  }

  /** The price an intent is judged at: its own limit, else the last known price. */
  function PriceFor(i: OrderIntent, st: RiskState): real {
    if i.limitPrice.Some? && i.limitPrice.value != 0.0 then i.limitPrice.value else Get(st.prices, i.pair)
  }

  ghost function Gross(st: RiskState): real {
    Sum(map p | p in st.positions :: Worth(st.positions[p], Get(st.prices, p)))
  }

  // ----- the daily rail -----

  /** One position at the lower of cost and market. */
  function FloorValue(pos: Position, price: real): real {
    Min(Cost(pos), Worth(pos, price))
  }

  ghost function FloorEquity(st: RiskState): real {
    st.cash + Sum(map p | p in st.positions :: FloorValue(st.positions[p], Get(st.prices, p)))
  }

  /** With any number of pairs the floor is at most cash plus cost, and at most the equity. */
  lemma FloorBelowBoth(st: RiskState)
    ensures FloorEquity(st) <= st.cash + Sum(map p | p in st.positions :: Cost(st.positions[p]))
    ensures FloorEquity(st) <= st.cash + Gross(st)
  {
    var floors := map p | p in st.positions :: FloorValue(st.positions[p], Get(st.prices, p));
    SumMonotone(floors, map p | p in st.positions :: Cost(st.positions[p]));
    SumMonotone(floors, map p | p in st.positions :: Worth(st.positions[p], Get(st.prices, p)));
  }

  datatype Manager = Manager(halted: bool, haltReason: string, day: Option<int>, dayStartFloor: real,
                             lastFloor: Option<real>, losses: int, cooldown: int)

  const FRESH := Manager(false, "", None, 0.0, None, 0, 0)
  const DAILY_LOSS := "max daily loss hit"

  /** One candle: the day's baseline is the floor last seen before it. */
  function OnCandle(cfg: RiskConfig, m: Manager, day: int, floor: real): Manager {
    var start := if m.day == Some(day) then m.dayStartFloor else m.lastFloor.GetOr(floor);
    var hit := floor - start <= -cfg.maxDailyLoss;
    m.(day := Some(day), dayStartFloor := start, lastFloor := Some(floor),
       cooldown := if m.cooldown > 0 then m.cooldown - 1 else m.cooldown,
       halted := m.halted || hit, haltReason := if hit then DAILY_LOSS else m.haltReason)
  }

  function NotifyTradeResult(cfg: RiskConfig, m: Manager, realized: real): Manager {
    if realized < 0.0 then
      if m.losses + 1 >= cfg.maxConsecutiveLosses then m.(losses := 0, cooldown := cfg.cooldownCandles)
      else m.(losses := m.losses + 1)
    else if realized > 0.0 then m.(losses := 0)
    else m
  }

  // ----- losing streaks -----

  /** The manager after a list of trade results. */
  function Notified(cfg: RiskConfig, m: Manager, results: seq<real>): Manager {
    if results == [] then m
    else NotifyTradeResult(cfg, Notified(cfg, m, results[..|results| - 1]), results[|results| - 1])
  }

  /** Losses since the last profit; a break-even trade neither counts nor resets. */
  function Streak(results: seq<real>): nat {
    if results == [] then 0
    else
      var before, last := Streak(results[..|results| - 1]), results[|results| - 1];
      if last < 0.0 then before + 1 else if last > 0.0 then 0 else before
  }

  /** How many losses in a row start a cooldown; never fewer than one. */
  function StreakLimit(cfg: RiskConfig): (n: nat)
    ensures n >= 1
  {
    if cfg.maxConsecutiveLosses > 1 then cfg.maxConsecutiveLosses else 1
  }

  lemma NextInCycle(k: nat, n: nat)
    requires n >= 1
    ensures (k + 1) % n == if k % n + 1 == n then 0 else k % n + 1
  {
    var q, r := k / n, k % n;
    if r + 1 == n {
      CycleIs(k + 1, q + 1, 0, n);
    } else {
      CycleIs(k + 1, q, r + 1, n);
    }
  }

  lemma CycleIs(k: nat, q: nat, r: nat, n: nat)
    requires 0 <= r < n && k == q * n + r
    ensures k % n == r
  {
    var d := k / n - q;
    assert d * n == r - k % n;
    assert d >= 1 ==> d * n >= n;
    assert d <= -1 ==> d * n + n <= 0;
  }

  /** The counter holds the losses since the last profit, counted from the last cooldown. */
  lemma {:induction false} CounterIsStreak(cfg: RiskConfig, results: seq<real>)
    ensures Notified(cfg, FRESH, results).losses == Streak(results) % StreakLimit(cfg)
  {
    if results != [] {
      var init := results[..|results| - 1];
      CounterIsStreak(cfg, init);
      NextInCycle(Streak(init), StreakLimit(cfg));
    }
  }

  /** A trade result starts the cooldown exactly when it completes a streak of losses, or another
      such streak with no profit since; any other result leaves the cooldown as it is. */
  lemma {:induction false} CooldownAfterStreak(cfg: RiskConfig, results: seq<real>, x: real)
    ensures var before := Notified(cfg, FRESH, results);
            NotifyTradeResult(cfg, before, x).cooldown
            == if x < 0.0 && Streak(results + [x]) % StreakLimit(cfg) == 0 then cfg.cooldownCandles else before.cooldown
  {
    assert (results + [x])[..|results|] == results;
    CounterIsStreak(cfg, results);
    NextInCycle(Streak(results), StreakLimit(cfg));
  }

  // ----- spot batches -----

  /** The running effect of the approvals so far. */
  datatype Batch = Batch(cashLeft: real, added: map<Pair, real>, sold: map<Pair, real>)

  ghost function Budget(cfg: RiskConfig, i: OrderIntent, st: RiskState, b: Batch): real
    requires cfg.costRate != -1.0
  {
    Room(cfg, PairExposure(i, st), Get(b.added, i.pair), Gross(st) + Sum(b.added), b.cashLeft)
  }

  /** The tightest of the pair cap, the gross cap and the cash. */
  function Room(cfg: RiskConfig, held: real, added: real, gross: real, cashLeft: real): real
    requires cfg.costRate != -1.0
  {
    Min(Min(cfg.maxPosition - held - added, cfg.maxGross - gross), SpendableNow(cfg, cashLeft))
  }

  /** What is held of an intent's pair, at the price the intent is judged at. */
  function PairExposure(i: OrderIntent, st: RiskState): real {
    Worth(PositionIn(st, i.pair), PriceFor(i, st))
  }

  /** Cash deflated by worst-case costs. */
  function SpendableNow(cfg: RiskConfig, cashLeft: real): real
    requires cfg.costRate != -1.0
  {
    cashLeft / (1.0 + cfg.costRate)
  }

  function Refuse(i: OrderIntent): Assessment {
    Assessment(i, Refused, 0.0)
  }

  /** A sell is clamped to what is held; a full exit may be dust. */
  function AssessSell(cfg: RiskConfig, i: OrderIntent, st: RiskState, b: Batch): Assessment {
    var held := PositionIn(st, i.pair).size;
    var size := Min(i.size, held - Get(b.sold, i.pair));
    if size <= 0.0 then Refuse(i)
    else if size < held && size * PriceFor(i, st) < cfg.minOrder then Refuse(i)
    else Assessment(i, if size < i.size then Resized else Approved, size)
  }

  /** A buy is clamped to the budget; the cooldown refuses it outright. */
  function SizeBuy(cfg: RiskConfig, i: OrderIntent, price: real, budget: real): Assessment
    requires price > 0.0
  {
    var size := if budget > 0.0 then Min(i.size, budget / price) else 0.0;
    if size * price < cfg.minOrder then Refuse(i)
    else Assessment(i, if size < i.size * 0.999 then Resized else Approved, size)
  }

  ghost function AssessOne(cfg: RiskConfig, cooldown: int, i: OrderIntent, st: RiskState, b: Batch): Assessment
    requires cfg.costRate != -1.0
  {
    if PriceFor(i, st) <= 0.0 then Refuse(i)
    else if i.side.Sell? then AssessSell(cfg, i, st, b)
    else if cooldown > 0 then Refuse(i)
    else SizeBuy(cfg, i, PriceFor(i, st), Budget(cfg, i, st, b))
  }

  function Fold(b: Batch, a: Assessment, st: RiskState): Batch {
    if a.decision.Refused? then b
    else if a.intent.side.Buy? then
      var notional := a.size * PriceFor(a.intent, st);
      b.(cashLeft := b.cashLeft - notional,
         added := b.added[a.intent.pair := Get(b.added, a.intent.pair) + notional])
    else b.(sold := b.sold[a.intent.pair := Get(b.sold, a.intent.pair) + a.size])
  }

  ghost function AssessFrom(cfg: RiskConfig, cooldown: int, intents: seq<OrderIntent>, st: RiskState, b: Batch)
    : seq<Assessment>
    requires cfg.costRate != -1.0
    decreases |intents|
  {
    if intents == [] then []
    else
      var a := AssessOne(cfg, cooldown, intents[0], st, b);
      [a] + AssessFrom(cfg, cooldown, intents[1..], st, Fold(b, a, st))
  }

  ghost function AssessSpot(cfg: RiskConfig, cooldown: int, intents: seq<OrderIntent>, st: RiskState): seq<Assessment>
    requires cfg.costRate != -1.0
  {
    AssessFrom(cfg, cooldown, intents, st, Batch(st.cash, map[], map[]))
  }

  // ----- what a batch adds up to, read off its assessments -----

  predicate Buys(a: Assessment) {
    !a.decision.Refused? && a.intent.side.Buy?
  }

  predicate Sells(a: Assessment) {
    !a.decision.Refused? && a.intent.side.Sell?
  }

  function Notional(a: Assessment, st: RiskState): real {
    a.size * PriceFor(a.intent, st)
  }

  function BuyNotional(batch: seq<Assessment>, st: RiskState): real {
    if batch == [] then 0.0
    else (if Buys(batch[0]) then Notional(batch[0], st) else 0.0) + BuyNotional(batch[1..], st)
  }

  function PairBuyNotional(batch: seq<Assessment>, st: RiskState, pair: Pair): real {
    if batch == [] then 0.0
    else (if Buys(batch[0]) && batch[0].intent.pair == pair then Notional(batch[0], st) else 0.0)
         + PairBuyNotional(batch[1..], st, pair)
  }

  function SellSize(batch: seq<Assessment>, pair: Pair): real {
    if batch == [] then 0.0
    else (if Sells(batch[0]) && batch[0].intent.pair == pair then batch[0].size else 0.0)
         + SellSize(batch[1..], pair)
  }

  function BuyCount(batch: seq<Assessment>): nat {
    if batch == [] then 0 else (if Buys(batch[0]) then 1 else 0) + BuyCount(batch[1..])
  }

  predicate ValidIntents(intents: seq<OrderIntent>) {
    forall i :: i in intents ==> ValidIntent(i)
  }

  /** Approved sizes are never negative, and a buy spends at most its share of the cash left. */
  lemma BuyStep(cfg: RiskConfig, cooldown: int, i: OrderIntent, st: RiskState, b: Batch)
    requires cfg.costRate != -1.0 && ValidIntent(i)
    requires Buys(AssessOne(cfg, cooldown, i, st, b))
    ensures var a := AssessOne(cfg, cooldown, i, st, b);
            && cooldown <= 0 && 0.0 <= a.size <= i.size && Notional(a, st) >= 0.0
            && (a.size > 0.0 ==> Notional(a, st) <= Budget(cfg, i, st, b))
            && (a.size == 0.0 ==> Notional(a, st) == 0.0)
  {
    var price, budget := PriceFor(i, st), Budget(cfg, i, st, b);
    if budget > 0.0 {
      QuotientTimes(budget, price);
      var size := AssessOne(cfg, cooldown, i, st, b).size;
      TimesMonotone(size, budget / price, price);
      QuotientPositive(budget, price);
    }
  }

  lemma QuotientTimes(x: real, y: real)
    requires y != 0.0
    ensures x / y * y == x
  {}

  lemma QuotientPositive(x: real, y: real)
    requires x > 0.0 && y > 0.0
    ensures x / y > 0.0
  {}

  lemma TimesMonotone(x: real, y: real, z: real)
    requires x <= y && z >= 0.0
    ensures x * z <= y * z
  {}

  lemma TimesNonNegative(x: real, y: real)
    requires x >= 0.0 && y >= 0.0
    ensures x * y >= 0.0
  {}

  /** Sells of a whole batch never exceed the position, for any intents whatever. */
  lemma {:induction false} SellsWithinPosition(cfg: RiskConfig, cooldown: int, intents: seq<OrderIntent>,
                                               st: RiskState, b: Batch, pair: Pair)
    requires cfg.costRate != -1.0
    requires 0.0 <= Get(b.sold, pair) <= Max(PositionIn(st, pair).size, 0.0)
    ensures var batch := AssessFrom(cfg, cooldown, intents, st, b);
            && 0.0 <= SellSize(batch, pair)
            && Get(b.sold, pair) + SellSize(batch, pair) <= Max(PositionIn(st, pair).size, 0.0)
    decreases |intents|
  {
    if intents != [] {
      var a := AssessOne(cfg, cooldown, intents[0], st, b);
      SellsWithinPosition(cfg, cooldown, intents[1..], st, Fold(b, a, st), pair);
    }
  }

  lemma FoldAdds(b: Batch, a: Assessment, st: RiskState, pair: Pair)
    ensures var spent := if Buys(a) then Notional(a, st) else 0.0;
            && Sum(Fold(b, a, st).added) == Sum(b.added) + spent
            && Fold(b, a, st).cashLeft == b.cashLeft - spent
            && Get(Fold(b, a, st).added, pair)
               == Get(b.added, pair) + (if pair == a.intent.pair then spent else 0.0)
  {
    if Buys(a) {
      SumUpdate(b.added, a.intent.pair, Get(b.added, a.intent.pair) + Notional(a, st));
    }
  }

  lemma BuyStepCaps(cfg: RiskConfig, cooldown: int, i: OrderIntent, st: RiskState, b: Batch)
    requires cfg.costRate != -1.0 && ValidIntent(i)
    requires Buys(AssessOne(cfg, cooldown, i, st, b)) && AssessOne(cfg, cooldown, i, st, b).size > 0.0
    ensures var notional := Notional(AssessOne(cfg, cooldown, i, st, b), st);
            && PairExposure(i, st) + Get(b.added, i.pair) + notional <= cfg.maxPosition
            && Gross(st) + Sum(b.added) + notional <= cfg.maxGross
  {
    BuyStep(cfg, cooldown, i, st, b);
  }

  /** Caps at every approval: the pair at the price used, and the gross, each counted
      from the approvals alone. */
  lemma {:induction false} BuysWithinCaps(cfg: RiskConfig, cooldown: int, intents: seq<OrderIntent>,
                                          st: RiskState, b: Batch, k: nat)
    requires cfg.costRate != -1.0 && ValidIntents(intents)
    requires k < |AssessFrom(cfg, cooldown, intents, st, b)|
    requires Buys(AssessFrom(cfg, cooldown, intents, st, b)[k])
    requires AssessFrom(cfg, cooldown, intents, st, b)[k].size > 0.0
    ensures var upTo := AssessFrom(cfg, cooldown, intents, st, b)[..k + 1];
            var i := upTo[k].intent;
            && PairExposure(i, st) + Get(b.added, i.pair) + PairBuyNotional(upTo, st, i.pair) <= cfg.maxPosition
            && Gross(st) + Sum(b.added) + BuyNotional(upTo, st) <= cfg.maxGross
    decreases |intents|
  {
    assert intents[0] in intents;
    var a := AssessOne(cfg, cooldown, intents[0], st, b);
    var rest := AssessFrom(cfg, cooldown, intents[1..], st, Fold(b, a, st));
    var upTo := AssessFrom(cfg, cooldown, intents, st, b)[..k + 1];
    assert upTo[0] == a && upTo[1..] == rest[..k];
    FoldAdds(b, a, st, upTo[k].intent.pair);
    if k == 0 {
      BuyStepCaps(cfg, cooldown, intents[0], st, b);
      assert rest[..0] == [];
    } else {
      BuysWithinCaps(cfg, cooldown, intents[1..], st, Fold(b, a, st), k - 1);
    }
  }

  /** `cash` times `keep` to the power `n`. */
  function Shrunk(cash: real, keep: real, n: nat): real {
    if n == 0 then cash else keep * Shrunk(cash, keep, n - 1)
  }

  /** `n` buys spent `spent` out of `cash`, each leaving at least its share. */
  ghost predicate Affordable(cash: real, keep: real, spent: real, n: nat) {
    cash - spent >= Shrunk(cash, keep, n) && spent <= cash
  }

  /** With nonnegative costs the whole batch is affordable, and n approved buys
      leave at least (r / (1 + r))^n of the cash. */
  lemma {:induction false} CashLeftOver(cfg: RiskConfig, cooldown: int, intents: seq<OrderIntent>,
                                        st: RiskState, b: Batch)
    requires cfg.costRate >= 0.0 && ValidIntents(intents) && b.cashLeft >= 0.0
    ensures var batch := AssessFrom(cfg, cooldown, intents, st, b);
            Affordable(b.cashLeft, Keep(cfg), BuyNotional(batch, st), BuyCount(batch))
    decreases |intents|
  {
    if intents == [] {
    } else {
      assert intents[0] in intents;
      var a := AssessOne(cfg, cooldown, intents[0], st, b);
      var next := Fold(b, a, st);
      var rest := AssessFrom(cfg, cooldown, intents[1..], st, next);
      if Buys(a) {
        BuyStepCash(cfg, cooldown, intents[0], st, b);
      }
      FoldAdds(b, a, st, intents[0].pair);
      CashLeftOver(cfg, cooldown, intents[1..], st, next);
      OneMore(cfg, st, b.cashLeft, next.cashLeft, a, rest);
    }
  }

  lemma {:induction false} OneMore(cfg: RiskConfig, st: RiskState, cash: real, left: real, a: Assessment,
                                   rest: seq<Assessment>)
    requires cfg.costRate >= 0.0
    requires left == cash - (if Buys(a) then Notional(a, st) else 0.0)
    requires Buys(a) ==> left >= OneBuyLater(cash, Keep(cfg)) >= 0.0 && Keep(cfg) >= 0.0
    requires Affordable(left, Keep(cfg), BuyNotional(rest, st), BuyCount(rest))
    ensures Affordable(cash, Keep(cfg), BuyNotional([a] + rest, st), BuyCount([a] + rest))
  {
    assert ([a] + rest)[1..] == rest;
    if Buys(a) {
      KeepOneMore(cash, Keep(cfg), left, BuyNotional(rest, st), BuyCount(rest));
    }
  }

  /** The share of its cash that one fully funded buy leaves behind. */
  function Keep(cfg: RiskConfig): real
    requires cfg.costRate >= 0.0
  {
    cfg.costRate / (1.0 + cfg.costRate)
  }

  function OneBuyLater(cash: real, keep: real): real {
    cash * keep
  }

  lemma BuyStepCash(cfg: RiskConfig, cooldown: int, i: OrderIntent, st: RiskState, b: Batch)
    requires cfg.costRate >= 0.0 && ValidIntent(i) && b.cashLeft >= 0.0
    requires Buys(AssessOne(cfg, cooldown, i, st, b))
    ensures var left := b.cashLeft - Notional(AssessOne(cfg, cooldown, i, st, b), st);
            left >= OneBuyLater(b.cashLeft, Keep(cfg)) >= 0.0 && Keep(cfg) >= 0.0
  {
    BuyStep(cfg, cooldown, i, st, b);
    SpendOnce(cfg, b.cashLeft, Notional(AssessOne(cfg, cooldown, i, st, b), st));
  }

  lemma KeepOneMore(cash: real, keep: real, left: real, spent: real, n: nat)
    requires left >= OneBuyLater(cash, keep) >= 0.0 && keep >= 0.0 && Affordable(left, keep, spent, n)
    ensures Affordable(cash, keep, cash - left + spent, n + 1)
  {
    ShrunkGrows(cash * keep, left, keep, n);
    ShrunkOnce(cash, keep, n);
    ShrunkGrows(0.0, left, keep, n);
    ShrunkZero(keep, n);
  }

  lemma {:induction false} ShrunkGrows(low: real, high: real, keep: real, n: nat)
    requires low <= high && keep >= 0.0
    ensures Shrunk(low, keep, n) <= Shrunk(high, keep, n)
  {
    if n > 0 {
      ShrunkGrows(low, high, keep, n - 1);
      TimesMonotone(Shrunk(low, keep, n - 1), Shrunk(high, keep, n - 1), keep);
    }
  }

  lemma {:induction false} ShrunkOnce(cash: real, keep: real, n: nat)
    ensures Shrunk(cash, keep, n + 1) == Shrunk(cash * keep, keep, n)
  {
    if n > 0 {
      ShrunkOnce(cash, keep, n - 1);
    }
  }

  lemma {:induction false} ShrunkZero(keep: real, n: nat)
    ensures Shrunk(0.0, keep, n) == 0.0
  {
    if n > 0 {
      ShrunkZero(keep, n - 1);
    }
  }

  lemma KeepIsAShare(r: real)
    requires r >= 0.0
    ensures 0.0 <= r / (1.0 + r) <= 1.0
  {}

  lemma SpendOnce(cfg: RiskConfig, cash: real, notional: real)
    requires cash >= 0.0 && cfg.costRate >= 0.0
    requires notional <= SpendableNow(cfg, cash) || notional == 0.0
    ensures cash - notional >= OneBuyLater(cash, Keep(cfg)) >= 0.0 && Keep(cfg) >= 0.0
  {
    var r, keep := cfg.costRate, Keep(cfg);
    KeepIsAShare(r);
    SpentAndKept(cash, r);
    TimesNonNegative(cash, keep);
    TimesMonotone(keep, 1.0, cash);
  }

  /** What one buy can spend at cost rate r, and the share it keeps. */
  lemma SpentAndKept(cash: real, r: real)
    requires r >= 0.0
    ensures cash / (1.0 + r) + cash * (r / (1.0 + r)) == cash
  {
    var unit := 1.0 / (1.0 + r);
    assert cash / (1.0 + r) == cash * unit && r / (1.0 + r) == r * unit;
    assert unit + r * unit == 1.0;
    assert cash * unit + cash * (r * unit) == cash * (unit + r * unit);
  }

  // ----- perp batches -----

  function Signed(side: Side, size: real): real {
    if side.Buy? then size else -size
  }

  /** The magnitude of a signed size at a price. */
  function Magnitude(size: real, price: real): real {
    Abs(size) * price
  }

  ghost function GrossOf(resulting: map<Pair, real>, st: RiskState): real {
    Sum(map p | p in resulting :: Magnitude(resulting[p], Get(st.prices, p)))
  }

  ghost function CapQuote(cfg: RiskConfig, i: OrderIntent, st: RiskState, resulting: map<Pair, real>): real {
    Min(cfg.maxPosition, cfg.maxGross - GrossOf(resulting - {i.pair}, st))
  }

  function CapSize(capQuote: real, price: real): real
    requires price > 0.0
  {
    Max(capQuote, 0.0) / price
  }

  /** The change nearest to the one asked for that keeps the magnitude inside the cap. */
  function Clamped(delta: real, current: real, cap: real): real {
    Min(Max(delta, -cap - current), cap - current)
  }

  /** Shorts are allowed; the caps hold on the resulting magnitude. */
  function SizePerp(cfg: RiskConfig, cooldown: int, i: OrderIntent, price: real, current: real, capQuote: real)
    : Assessment
    requires price > 0.0
  {
    var delta := Signed(i.side, i.size);
    var d := Clamped(delta, current, CapSize(capQuote, price));
    if (delta > 0.0 && d <= 0.0) || (delta < 0.0 && d >= 0.0) then Refuse(i)
    else if cooldown > 0 && Abs(current + d) > Abs(current) + 0.000000000001 then Refuse(i)
    else if Abs(d) * price < cfg.minOrder && current + d != 0.0 then Refuse(i)
    else Assessment(i, if Abs(d) < i.size * 0.999 then Resized else Approved, Abs(d))
  }

  ghost function AssessPerpOne(cfg: RiskConfig, cooldown: int, i: OrderIntent, st: RiskState,
                               resulting: map<Pair, real>): Assessment
  {
    if PriceFor(i, st) <= 0.0 then Refuse(i)
    else SizePerp(cfg, cooldown, i, PriceFor(i, st), Get(resulting, i.pair), CapQuote(cfg, i, st, resulting))
  }

  function FoldPerp(resulting: map<Pair, real>, a: Assessment): map<Pair, real> {
    if a.decision.Refused? then resulting
    else resulting[a.intent.pair := Get(resulting, a.intent.pair) + Signed(a.intent.side, a.size)]
  }

  ghost function AssessPerpFrom(cfg: RiskConfig, cooldown: int, intents: seq<OrderIntent>, st: RiskState,
                                resulting: map<Pair, real>): seq<Assessment>
    decreases |intents|
  {
    if intents == [] then []
    else
      var a := AssessPerpOne(cfg, cooldown, intents[0], st, resulting);
      [a] + AssessPerpFrom(cfg, cooldown, intents[1..], st, FoldPerp(resulting, a))
  }

  function SizesOf(st: RiskState): map<Pair, real> {
    map p | p in st.positions :: st.positions[p].size
  }

  ghost function Assess(cfg: RiskConfig, cooldown: int, intents: seq<OrderIntent>, st: RiskState): seq<Assessment>
    requires cfg.costRate != -1.0
  {
    if cfg.perp then AssessPerpFrom(cfg, cooldown, intents, st, SizesOf(st))
    else AssessSpot(cfg, cooldown, intents, st)
  }

  /** The signed sizes a batch of approvals leads to. */
  function After(resulting: map<Pair, real>, batch: seq<Assessment>): map<Pair, real>
    decreases |batch|
  {
    if batch == [] then resulting else After(FoldPerp(resulting, batch[0]), batch[1..])
  }

  lemma ClampedInside(delta: real, current: real, cap: real)
    requires cap >= 0.0
    ensures Abs(current + Clamped(delta, current, cap)) <= cap
  {}

  lemma SizePerpInside(cfg: RiskConfig, cooldown: int, i: OrderIntent, price: real, current: real, capQuote: real)
    requires ValidIntent(i) && price > 0.0
    requires !SizePerp(cfg, cooldown, i, price, current, capQuote).decision.Refused?
    ensures var after := current + Signed(i.side, SizePerp(cfg, cooldown, i, price, current, capQuote).size);
            && Magnitude(after, price) <= Max(capQuote, 0.0)
            && (cooldown > 0 ==> Abs(after) <= Abs(current) + 0.000000000001)
  {
    var cap := CapSize(capQuote, price);
    CapTimesPrice(capQuote, price);
    var d := Clamped(Signed(i.side, i.size), current, cap);
    ClampedInside(Signed(i.side, i.size), current, cap);
    assert Signed(i.side, Abs(d)) == d;
    TimesMonotone(Abs(current + d), cap, price);
  }

  /** One approval: the pair ends inside its cap, and a cooldown lets no magnitude grow. */
  lemma PerpStep(cfg: RiskConfig, cooldown: int, i: OrderIntent, st: RiskState, resulting: map<Pair, real>)
    requires ValidIntent(i) && !AssessPerpOne(cfg, cooldown, i, st, resulting).decision.Refused?
    ensures var a := AssessPerpOne(cfg, cooldown, i, st, resulting);
            var after := FoldPerp(resulting, a);
            && a.intent == i && PriceFor(i, st) > 0.0
            && after == resulting[i.pair := after[i.pair]]
            && Magnitude(after[i.pair], PriceFor(i, st)) <= Max(CapQuote(cfg, i, st, resulting), 0.0)
            && (cooldown > 0 ==> Abs(after[i.pair]) <= Abs(Get(resulting, i.pair)) + 0.000000000001)
  {
    SizePerpInside(cfg, cooldown, i, PriceFor(i, st), Get(resulting, i.pair), CapQuote(cfg, i, st, resulting));
  }

  lemma MagnitudeNonNegative(size: real, price: real)
    requires price >= 0.0
    ensures Magnitude(size, price) >= 0.0
  {
    TimesNonNegative(Abs(size), price);
  }

  lemma PerpStepGross(cfg: RiskConfig, cooldown: int, i: OrderIntent, st: RiskState, resulting: map<Pair, real>)
    requires ValidIntent(i) && !AssessPerpOne(cfg, cooldown, i, st, resulting).decision.Refused?
    requires i.limitPrice.None?
    ensures var after := FoldPerp(resulting, AssessPerpOne(cfg, cooldown, i, st, resulting));
            GrossOf(after, st) <= Max(cfg.maxGross, GrossOf(resulting, st))
  {
    PerpStep(cfg, cooldown, i, st, resulting);
    var after := FoldPerp(resulting, AssessPerpOne(cfg, cooldown, i, st, resulting));
    GrossSplits(resulting, i.pair, st);
    GrossSplits(after, i.pair, st);
    assert after - {i.pair} == resulting - {i.pair};
    MagnitudeNonNegative(Get(resulting, i.pair), PriceFor(i, st));
  }

  lemma CapTimesPrice(capQuote: real, price: real)
    requires price > 0.0
    ensures CapSize(capQuote, price) * price == Max(capQuote, 0.0)
    ensures CapSize(capQuote, price) >= 0.0
  {
    QuotientTimes(Max(capQuote, 0.0), price);
  }

  lemma GrossSplits(resulting: map<Pair, real>, pair: Pair, st: RiskState)
    ensures GrossOf(resulting, st)
         == GrossOf(resulting - {pair}, st)
            + (if pair in resulting then Magnitude(resulting[pair], Get(st.prices, pair)) else 0.0)
  {
    var values := map p | p in resulting :: Magnitude(resulting[p], Get(st.prices, p));
    var rest := resulting - {pair};
    if pair in resulting {
      assert (map p | p in rest :: Magnitude(rest[p], Get(st.prices, p))) == values - {pair};
      SumRemove(values, pair);
    } else {
      assert rest == resulting;
    }
  }

  /** Every approval of a perp batch leaves its pair inside the cap at the price used. */
  lemma {:induction false} PerpWithinCaps(cfg: RiskConfig, cooldown: int, intents: seq<OrderIntent>, st: RiskState,
                                          resulting: map<Pair, real>, k: nat)
    requires ValidIntents(intents) && k < |AssessPerpFrom(cfg, cooldown, intents, st, resulting)|
    requires !AssessPerpFrom(cfg, cooldown, intents, st, resulting)[k].decision.Refused?
    ensures var upTo := AssessPerpFrom(cfg, cooldown, intents, st, resulting)[..k + 1];
            var i := upTo[k].intent;
            Magnitude(Get(After(resulting, upTo), i.pair), PriceFor(i, st)) <= Max(cfg.maxPosition, 0.0)
    decreases |intents|
  {
    assert intents[0] in intents;
    var a := AssessPerpOne(cfg, cooldown, intents[0], st, resulting);
    var next := FoldPerp(resulting, a);
    var rest := AssessPerpFrom(cfg, cooldown, intents[1..], st, next);
    var upTo := AssessPerpFrom(cfg, cooldown, intents, st, resulting)[..k + 1];
    assert upTo[0] == a && upTo[1..] == rest[..k];
    if k == 0 {
      PerpStep(cfg, cooldown, intents[0], st, resulting);
      assert upTo[1..] == [];
    } else {
      PerpWithinCaps(cfg, cooldown, intents[1..], st, next, k - 1);
    }
  }

  /** A batch of market intents never takes the gross above max(cap, gross before). */
  lemma {:induction false} PerpGrossCapped(cfg: RiskConfig, cooldown: int, intents: seq<OrderIntent>, st: RiskState,
                                           resulting: map<Pair, real>)
    requires ValidIntents(intents) && forall i :: i in intents ==> i.limitPrice.None?
    ensures var batch := AssessPerpFrom(cfg, cooldown, intents, st, resulting);
            GrossOf(After(resulting, batch), st) <= Max(cfg.maxGross, GrossOf(resulting, st))
    decreases |intents|
  {
    if intents != [] {
      assert intents[0] in intents;
      var a := AssessPerpOne(cfg, cooldown, intents[0], st, resulting);
      var next := FoldPerp(resulting, a);
      var rest := AssessPerpFrom(cfg, cooldown, intents[1..], st, next);
      if !a.decision.Refused? {
        PerpStepGross(cfg, cooldown, intents[0], st, resulting);
      }
      PerpGrossCapped(cfg, cooldown, intents[1..], st, next);
      assert ([a] + rest)[1..] == rest;
    }
  }

  // ----- checkpoints -----

  datatype RiskCheckpoint = RiskCheckpoint(day: Option<int>, dayStartFloor: real, lastFloor: Option<real>,
                                           losses: int, cooldown: int, halted: bool, haltReason: string)

  function Snapshot(m: Manager): RiskCheckpoint {
    RiskCheckpoint(m.day, m.dayStartFloor, m.lastFloor, m.losses, m.cooldown, m.halted, m.haltReason)
  }

  /** What validation accepts. */
  predicate Consistent(c: RiskCheckpoint) {
    && c.losses >= 0 && c.cooldown >= 0
    && (c.day.None? <==> c.lastFloor.None?)
    && (c.halted ==> c.haltReason != "")
  }

  /** Building a checkpoint validates it: an inconsistent one is never written. */
  function Checkpoint(m: Manager): Option<RiskCheckpoint> {
    if Consistent(Snapshot(m)) then Some(Snapshot(m)) else None
  }

  /** Loading one validates it again; without one the manager is fresh. */
  function Restored(c: Option<RiskCheckpoint>): Option<Manager> {
    match c
    case None => Some(FRESH)
    case Some(s) =>
      if Consistent(s) then
        Some(Manager(s.halted, s.haltReason, s.day, s.dayStartFloor, s.lastFloor, s.losses, s.cooldown))
      else None
  }

  /** Everything the engine does to a manager between two candles' decisions. */
  datatype Operation = Candle(day: int, floor: real) | TradeResult(realized: real) | EngineHalt(reason: string)

  function Operate(cfg: RiskConfig, m: Manager, o: Operation): Manager {
    match o
    case Candle(day, floor) => OnCandle(cfg, m, day, floor)
    case TradeResult(realized) => NotifyTradeResult(cfg, m, realized)
    case EngineHalt(reason) => m.(halted := true, haltReason := reason)
  }

  function Operated(cfg: RiskConfig, m: Manager, ops: seq<Operation>): Manager
    decreases |ops|
  {
    if ops == [] then m else Operated(cfg, Operate(cfg, m, ops[0]), ops[1..])
  }

  /** The engine's own halts (liquidation) always carry a reason. */
  predicate Reasoned(ops: seq<Operation>) {
    forall o :: o in ops && o.EngineHalt? ==> o.reason != ""
  }

  lemma {:induction false} OnlyCooldownCanBreak(cfg: RiskConfig, m: Manager, ops: seq<Operation>)
    requires Reasoned(ops)
    requires Consistent(Snapshot(m).(cooldown := 0))
    ensures var after := Operated(cfg, m, ops);
            && Consistent(Snapshot(after).(cooldown := 0))
            && (m.cooldown >= 0 && cfg.cooldownCandles >= 0 ==> after.cooldown >= 0)
    decreases |ops|
  {
    if ops != [] {
      assert ops[0] in ops;
      OnlyCooldownCanBreak(cfg, Operate(cfg, m, ops[0]), ops[1..]);
    }
  }

  lemma {:induction false} OperatedAppend(cfg: RiskConfig, m: Manager, a: seq<Operation>, b: seq<Operation>)
    ensures Operated(cfg, m, a + b) == Operated(cfg, Operated(cfg, m, a), b)
    decreases |a|
  {
    if a == [] {
      assert a + b == b;
    } else {
      assert (a + b)[1..] == a[1..] + b;
      OperatedAppend(cfg, Operate(cfg, m, a[0]), a[1..], b);
    }
  }

  /** Restart transparency: after any history a checkpoint is written exactly when the cooldown is
      not negative (always, for a nonnegative cooldown setting); it then restores, and the restored
      manager goes on as if nothing had happened. */
  lemma {:induction false} RestartIsTransparent(cfg: RiskConfig, before: seq<Operation>, after: seq<Operation>)
    requires Reasoned(before)
    ensures var saved := Operated(cfg, FRESH, before);
            && (Checkpoint(saved).Some? <==> saved.cooldown >= 0)
            && (cfg.cooldownCandles >= 0 ==> Checkpoint(saved).Some?)
            && (Checkpoint(saved).Some? ==>
                 && Restored(Checkpoint(saved)).Some?
                 && Operated(cfg, Restored(Checkpoint(saved)).value, after) == Operated(cfg, FRESH, before + after))
  {
    OnlyCooldownCanBreak(cfg, FRESH, before);
    OperatedAppend(cfg, FRESH, before, after);
  }

  /** Losses in a row. */
  function Losses(n: nat): seq<Operation> {
    if n == 0 then [] else [TradeResult(-1.0)] + Losses(n - 1)
  }

  lemma {:induction false} LossesStartCooldown(cfg: RiskConfig, m: Manager, n: nat)
    requires n >= 1 && m.losses >= 0 && m.losses + n == StreakLimit(cfg)
    ensures Operated(cfg, m, Losses(n)).cooldown == cfg.cooldownCandles
    decreases n
  {
    var next := NotifyTradeResult(cfg, m, -1.0);
    assert Losses(n)[1..] == Losses(n - 1);
    if n > 1 {
      LossesStartCooldown(cfg, next, n - 1);
    }
  }

  lemma {:induction false} LossesReasoned(n: nat)
    ensures Reasoned(Losses(n))
  {
    if n > 0 {
      LossesReasoned(n - 1);
    }
  }

  /** Every history can be checkpointed if and only if the cooldown setting is not negative. */
  lemma {:induction false} CheckpointsExactly(cfg: RiskConfig)
    ensures (forall before | Reasoned(before) :: Checkpoint(Operated(cfg, FRESH, before)).Some?)
        <==> cfg.cooldownCandles >= 0
  {
    if cfg.cooldownCandles >= 0 {
      forall before | Reasoned(before) ensures Checkpoint(Operated(cfg, FRESH, before)).Some? {
        RestartIsTransparent(cfg, before, []);
      }
    } else {
      var n := StreakLimit(cfg);
      LossesReasoned(n);
      LossesStartCooldown(cfg, FRESH, n);
      assert Checkpoint(Operated(cfg, FRESH, Losses(n))).None?;
    }
  }

  const NEGATIVE := RiskConfig(100.0, 100.0, 100.0, 1.0, 1, -1, false, 0.0)

  /** With a negative cooldown setting one loss is enough: the checkpoint is refused when written. */
  lemma NegativeCooldownRefusesCheckpoint()
    ensures Checkpoint(Operated(NEGATIVE, FRESH, [TradeResult(-1.0)])) == None
  {
    assert [TradeResult(-1.0)][1..] == [];
    assert Operated(NEGATIVE, FRESH, [TradeResult(-1.0)]) == FRESH.(cooldown := -1);
  }

  // ----- the manager object -----

  /** Add up a dictionary's values. */
  method SumOf(m: map<Pair, real>) returns (total: real)
    ensures total == Sum(m)
  {
    total := 0.0;
    var left := m;
    while left != map[]
      invariant total + Sum(left) == Sum(m)
      decreases |left|
    {
      var k :| k in left;
      SumRemove(left, k);
      total := total + left[k];
      left := left - {k};
    }
  }

  /** One more intent assessed: the results so far grow by its assessment. */
  lemma {:induction false} AssessNext(cfg: RiskConfig, cooldown: int, intents: seq<OrderIntent>, st: RiskState,
                                      b: Batch, i: nat, out: seq<Assessment>)
    requires cfg.costRate != -1.0 && i < |intents|
    ensures var a := AssessOne(cfg, cooldown, intents[i], st, b);
            out + AssessFrom(cfg, cooldown, intents[i..], st, b)
            == out + [a] + AssessFrom(cfg, cooldown, intents[i + 1..], st, Fold(b, a, st))
  {
    assert intents[i..][0] == intents[i] && intents[i..][1..] == intents[i + 1..];
  }

  lemma {:induction false} AssessPerpNext(cfg: RiskConfig, cooldown: int, intents: seq<OrderIntent>, st: RiskState,
                                          resulting: map<Pair, real>, i: nat, out: seq<Assessment>)
    requires i < |intents|
    ensures var a := AssessPerpOne(cfg, cooldown, intents[i], st, resulting);
            out + AssessPerpFrom(cfg, cooldown, intents[i..], st, resulting)
            == out + [a] + AssessPerpFrom(cfg, cooldown, intents[i + 1..], st, FoldPerp(resulting, a))
  {
    var rest := intents[i..];
    assert rest[0] == intents[i] && rest[1..] == intents[i + 1..];
    var a := AssessPerpOne(cfg, cooldown, intents[i], st, resulting);
    var later := AssessPerpFrom(cfg, cooldown, intents[i + 1..], st, FoldPerp(resulting, a));
    assert AssessPerpFrom(cfg, cooldown, rest, st, resulting) == [a] + later;
    assert out + ([a] + later) == out + [a] + later;
  }

  class RiskManager {
    const cfg: RiskConfig
    var halted: bool
    var haltReason: string
    var day: Option<int>
    var dayStartFloor: real
    var lastFloor: Option<real>
    var consecutiveLosses: int
    var cooldownRemaining: int

    function State(): Manager
      reads this
    {
      Manager(halted, haltReason, day, dayStartFloor, lastFloor, consecutiveLosses, cooldownRemaining)
    }

    constructor (cfg: RiskConfig, checkpoint: Option<RiskCheckpoint>)
      requires Restored(checkpoint).Some?
      ensures this.cfg == cfg && Some(State()) == Restored(checkpoint)
    {
      this.cfg := cfg;
      var saved := checkpoint.GetOr(Snapshot(FRESH));
      halted, haltReason := saved.halted, saved.haltReason;
      day, dayStartFloor, lastFloor := saved.day, saved.dayStartFloor, saved.lastFloor;
      consecutiveLosses, cooldownRemaining := saved.losses, saved.cooldown;
    }

    method CandleStep(st: RiskState) returns (mayContinue: bool)
      modifies this
      ensures State() == OnCandle(cfg, old(State()), st.day, FloorEquity(st))
      ensures mayContinue == !halted
    {
      var values := map p | p in st.positions :: FloorValue(st.positions[p], Get(st.prices, p));
      var total := SumOf(values);
      var floor := st.cash + total;
      if day != Some(st.day) {
        day := Some(st.day);
        dayStartFloor := if lastFloor.None? then floor else lastFloor.value;
      }
      lastFloor := Some(floor);
      if cooldownRemaining > 0 {
        cooldownRemaining := cooldownRemaining - 1;
      }
      if floor - dayStartFloor <= -cfg.maxDailyLoss {
        halted := true;
        haltReason := DAILY_LOSS;
      }
      mayContinue := !halted;
    }

    method NotifyResult(realized: real)
      modifies this
      ensures State() == NotifyTradeResult(cfg, old(State()), realized)
    {
      if realized < 0.0 {
        consecutiveLosses := consecutiveLosses + 1;
        if consecutiveLosses >= cfg.maxConsecutiveLosses {
          cooldownRemaining := cfg.cooldownCandles;
          consecutiveLosses := 0;
        }
      } else if realized > 0.0 {
        consecutiveLosses := 0;
      }
    }

    method Halt(reason: string)
      modifies this
      ensures State() == old(State()).(halted := true, haltReason := reason)
    {
      halted, haltReason := true, reason;
    }

    method AssessIntents(intents: seq<OrderIntent>, st: RiskState) returns (out: seq<Assessment>)
      requires cfg.costRate != -1.0
      ensures out == Assess(cfg, cooldownRemaining, intents, st)
    {
      if cfg.perp {
        out := AssessPerp(intents, st);
        return;
      }
      out := [];
      var batch := Batch(st.cash, map[], map[]);
      for i := 0 to |intents|
        invariant out + AssessFrom(cfg, cooldownRemaining, intents[i..], st, batch)
               == AssessSpot(cfg, cooldownRemaining, intents, st)
      {
        AssessNext(cfg, cooldownRemaining, intents, st, batch, i, out);
        var a := AssessSpotIntent(intents[i], st, batch);
        batch := Fold(batch, a, st);
        out := out + [a];
      }
    }

    method AssessSpotIntent(intent: OrderIntent, st: RiskState, batch: Batch) returns (a: Assessment)
      requires cfg.costRate != -1.0
      ensures a == AssessOne(cfg, cooldownRemaining, intent, st, batch)
    {
      if PriceFor(intent, st) <= 0.0 {
        return Refuse(intent);
      }
      if cooldownRemaining > 0 && intent.side.Buy? {
        return Refuse(intent);
      }
      if intent.side.Sell? {
        return AssessSell(cfg, intent, st, batch);
      }
      var gross := SumOf(map p | p in st.positions :: Worth(st.positions[p], Get(st.prices, p)));
      var addedTotal := SumOf(batch.added);
      var budget := Room(cfg, PairExposure(intent, st), Get(batch.added, intent.pair), gross + addedTotal,
                         batch.cashLeft);
      a := SizeBuy(cfg, intent, PriceFor(intent, st), budget);
    }

    method AssessPerp(intents: seq<OrderIntent>, st: RiskState) returns (out: seq<Assessment>)
      ensures out == AssessPerpFrom(cfg, cooldownRemaining, intents, st, SizesOf(st))
    {
      out := [];
      var resulting := SizesOf(st);
      for i := 0 to |intents|
        invariant out + AssessPerpFrom(cfg, cooldownRemaining, intents[i..], st, resulting)
               == AssessPerpFrom(cfg, cooldownRemaining, intents, st, SizesOf(st))
      {
        AssessPerpNext(cfg, cooldownRemaining, intents, st, resulting, i, out);
        var a := AssessPerpIntent(intents[i], st, resulting);
        resulting := FoldPerp(resulting, a);
        out := out + [a];
      }
    }

    method AssessPerpIntent(intent: OrderIntent, st: RiskState, resulting: map<Pair, real>) returns (a: Assessment)
      ensures a == AssessPerpOne(cfg, cooldownRemaining, intent, st, resulting)
    {
      if PriceFor(intent, st) <= 0.0 {
        return Refuse(intent);
      }
      var others := resulting - {intent.pair};
      var otherGross := SumOf(map p | p in others :: Magnitude(others[p], Get(st.prices, p)));
      var capQuote := Min(cfg.maxPosition, cfg.maxGross - otherGross);
      a := SizePerp(cfg, cooldownRemaining, intent, PriceFor(intent, st), Get(resulting, intent.pair), capQuote);
    }
  }
}
