/** When the daily-loss rail halts a run and how long a cooldown lasts, told from the history of
    floors and trade results alone (kaupo/risk/manager.py). */
module DailyRail {
  import opened RiskManager
  import opened Domain

  /** What one candle showed. */
  datatype Reading = Reading(day: int, floor: real)

  /** The candles of a history. */
  function Readings(ops: seq<Operation>): seq<Reading> {
    if ops == [] then []
    else
      var before, last := Readings(ops[..|ops| - 1]), ops[|ops| - 1];
      if last.Candle? then before + [Reading(last.day, last.floor)] else before
  }

  /** The first candle of the unbroken stretch of one day that ends with candle k. */
  function DayBegins(rs: seq<Reading>, k: nat): (j: nat)
    requires k < |rs|
    ensures j <= k && (forall i :: j <= i <= k ==> rs[i].day == rs[k].day)
    ensures j == 0 || rs[j - 1].day != rs[k].day
  {
    if k == 0 || rs[k - 1].day != rs[k].day then k else DayBegins(rs, k - 1)
  }

  /** What the day of candle k is measured against: the last floor before it began, or the first
      floor ever seen. */
  function Baseline(rs: seq<Reading>, k: nat): real
    requires k < |rs|
  {
    if DayBegins(rs, k) == 0 then rs[0].floor else rs[DayBegins(rs, k) - 1].floor
  }

  /** The floor at candle k has lost the whole allowance of its day. */
  predicate LossAt(cfg: RiskConfig, rs: seq<Reading>, k: nat)
    requires k < |rs|
  {
    rs[k].floor <= Baseline(rs, k) - cfg.maxDailyLoss
  }

  ghost predicate LossHit(cfg: RiskConfig, rs: seq<Reading>) {
    exists k :: 0 <= k < |rs| && LossAt(cfg, rs, k)
  }

  ghost predicate HaltedByEngine(ops: seq<Operation>) {
    exists o :: o in ops && o.EngineHalt?
  }

  // ----- the rail -----

  lemma {:induction false} DaySame(rs: seq<Reading>, r: Reading, k: nat)
    requires k < |rs|
    ensures DayBegins(rs + [r], k) == DayBegins(rs, k)
  {
    if k > 0 && rs[k - 1].day == rs[k].day {
      DaySame(rs, r, k - 1);
    }
  }

  lemma LossSame(cfg: RiskConfig, rs: seq<Reading>, r: Reading)
    ensures LossHit(cfg, rs + [r]) <==> LossHit(cfg, rs) || LossAt(cfg, rs + [r], |rs|)
  {
    var all := rs + [r];
    forall k | 0 <= k < |rs| ensures LossAt(cfg, all, k) <==> LossAt(cfg, rs, k) {
      DaySame(rs, r, k);
    }
    if LossHit(cfg, rs) {
      var k :| 0 <= k < |rs| && LossAt(cfg, rs, k);
      assert LossAt(cfg, all, k);
    }
    if LossHit(cfg, all) {
      var k :| 0 <= k < |all| && LossAt(cfg, all, k);
      assert k < |rs| ==> LossAt(cfg, rs, k);
    }
  }

  lemma NextBaseline(rs: seq<Reading>, r: Reading)
    ensures Baseline(rs + [r], |rs|)
         == if rs == [] then r.floor
            else if rs[|rs| - 1].day == r.day then Baseline(rs, |rs| - 1) else rs[|rs| - 1].floor
  {
    if rs != [] && rs[|rs| - 1].day == r.day {
      DaySame(rs, r, |rs| - 1);
    }
  }

  /** What the manager keeps of the readings. */
  ghost predicate Remembers(m: Manager, rs: seq<Reading>) {
    if rs == [] then m.day == None && m.lastFloor == None
    else
      var last := |rs| - 1;
      m.day == Some(rs[last].day) && m.lastFloor == Some(rs[last].floor) && m.dayStartFloor == Baseline(rs, last)
  }

  lemma OneCandle(cfg: RiskConfig, m: Manager, rs: seq<Reading>, day: int, floor: real)
    requires Remembers(m, rs)
    ensures var after := OnCandle(cfg, m, day, floor);
            && Remembers(after, rs + [Reading(day, floor)])
            && (after.halted <==> m.halted || LossAt(cfg, rs + [Reading(day, floor)], |rs|))
  {
    NextBaseline(rs, Reading(day, floor));
  }

  lemma {:induction false} LastOperation(cfg: RiskConfig, m: Manager, ops: seq<Operation>)
    requires ops != []
    ensures Operated(cfg, m, ops) == Operate(cfg, Operated(cfg, m, ops[..|ops| - 1]), ops[|ops| - 1])
  {
    var init, last := ops[..|ops| - 1], ops[|ops| - 1];
    assert ops == init + [last] && [last][1..] == [];
    OperatedAppend(cfg, m, init, [last]);
    var before := Operated(cfg, m, init);
    assert Operated(cfg, Operate(cfg, before, last), []) == Operate(cfg, before, last);
  }

  lemma {:induction false} RailIsExact(cfg: RiskConfig, ops: seq<Operation>)
    ensures Watched(cfg, ops, Operated(cfg, FRESH, ops))
  {
    if ops == [] {
      assert Readings(ops) == [];
    } else {
      var init, last := ops[..|ops| - 1], ops[|ops| - 1];
      RailIsExact(cfg, init);
      LastOperation(cfg, FRESH, ops);
      HaltsGrow(ops);
      WatchesOn(cfg, ops, Operated(cfg, FRESH, init));
    }
  }

  /** The manager remembers the readings, and is halted exactly when they or the engine say so. */
  ghost predicate Watched(cfg: RiskConfig, ops: seq<Operation>, m: Manager) {
    Remembers(m, Readings(ops)) && (m.halted <==> HaltedByEngine(ops) || LossHit(cfg, Readings(ops)))
  }

  lemma WatchesOn(cfg: RiskConfig, ops: seq<Operation>, before: Manager)
    requires ops != [] && Watched(cfg, ops[..|ops| - 1], before)
    requires HaltedByEngine(ops) <==> HaltedByEngine(ops[..|ops| - 1]) || ops[|ops| - 1].EngineHalt?
    ensures Watched(cfg, ops, Operate(cfg, before, ops[|ops| - 1]))
  {
    match ops[|ops| - 1] {
      case Candle(day, floor) =>
        OneCandle(cfg, before, Readings(ops[..|ops| - 1]), day, floor);
        LossSame(cfg, Readings(ops[..|ops| - 1]), Reading(day, floor));
      case TradeResult(x) =>
      case EngineHalt(why) =>
    }
  }

  lemma HaltsGrow(ops: seq<Operation>)
    requires ops != []
    ensures HaltedByEngine(ops) <==> HaltedByEngine(ops[..|ops| - 1]) || ops[|ops| - 1].EngineHalt?
  {
    var init, last := ops[..|ops| - 1], ops[|ops| - 1];
    assert ops == init + [last];
    if HaltedByEngine(init) {
      var o :| o in init && o.EngineHalt?;
      assert o in ops;
    }
    if last.EngineHalt? {
      assert last in ops;
    }
  }

  // ----- the cooldown -----

  /** The trade results of a history. */
  function Results(ops: seq<Operation>): seq<real> {
    if ops == [] then []
    else
      var before, last := Results(ops[..|ops| - 1]), ops[|ops| - 1];
      if last.TradeResult? then before + [last.realized] else before
  }

  /** Losses since the last profit, counted from the last complete streak. */
  function InStreak(cfg: RiskConfig, results: seq<real>): nat {
    Cycle(Streak(results), StreakLimit(cfg))
  }

  /** k modulo n. */
  function Cycle(k: nat, n: nat): (r: nat)
    requires n >= 1
    ensures r < n
  {
    if k < n then k else Cycle(k - n, n)
  }

  lemma {:induction false} CycleSteps(k: nat, n: nat)
    requires n >= 1
    ensures Cycle(k + 1, n) == if Cycle(k, n) + 1 == n then 0 else Cycle(k, n) + 1
  {
    if k >= n {
      CycleSteps(k - n, n);
    }
  }

  /** The i-th operation is the loss that completes a streak. */
  predicate StartsCooldown(cfg: RiskConfig, ops: seq<Operation>, i: nat)
    requires i < |ops|
  {
    ops[i].TradeResult? && ops[i].realized < 0.0 && InStreak(cfg, Results(ops[..i + 1])) == 0
  }

  ghost predicate LastStart(cfg: RiskConfig, ops: seq<Operation>, i: nat)
    requires i < |ops|
  {
    StartsCooldown(cfg, ops, i) && forall j :: i < j < |ops| ==> !StartsCooldown(cfg, ops, j)
  }

  ghost predicate NeverStarted(cfg: RiskConfig, ops: seq<Operation>) {
    forall j :: 0 <= j < |ops| ==> !StartsCooldown(cfg, ops, j)
  }

  /** How many candles came after the i-th operation. */
  function CandlesSince(ops: seq<Operation>, i: nat): nat
    requires i < |ops|
  {
    if i == |ops| - 1 then 0
    else CandlesSince(ops[..|ops| - 1], i) + (if ops[|ops| - 1].Candle? then 1 else 0)
  }

  /** What is left of a cooldown after n candles; a setting that is not positive just stays. */
  function Left(candles: int, n: nat): int {
    if candles <= 0 then candles else if n < candles then candles - n else 0
  }

  /** The counters, as far as the history tells. */
  ghost predicate Counts(cfg: RiskConfig, ops: seq<Operation>, m: Manager) {
    && m.losses == InStreak(cfg, Results(ops))
    && (NeverStarted(cfg, ops) ==> m.cooldown == 0)
    && (forall i :: 0 <= i < |ops| && LastStart(cfg, ops, i) ==>
          m.cooldown == Left(cfg.cooldownCandles, CandlesSince(ops, i)))
  }

  /** A start stays a start, whatever follows. */
  lemma StartsStay(cfg: RiskConfig, ops: seq<Operation>, i: nat)
    requires ops != [] && i < |ops| - 1
    ensures StartsCooldown(cfg, ops, i) <==> StartsCooldown(cfg, ops[..|ops| - 1], i)
  {
    assert ops[..|ops| - 1][..i + 1] == ops[..i + 1];
  }

  lemma NoNewStart(cfg: RiskConfig, ops: seq<Operation>, init: seq<Operation>)
    requires ops != [] && init == ops[..|ops| - 1] && !StartsCooldown(cfg, ops, |ops| - 1)
    ensures NeverStarted(cfg, ops) ==> NeverStarted(cfg, init)
    ensures forall i :: 0 <= i < |ops| && LastStart(cfg, ops, i) ==> i < |init| && LastStart(cfg, init, i)
  {
    if NeverStarted(cfg, ops) {
      forall j | 0 <= j < |init| ensures !StartsCooldown(cfg, init, j) {
        StartsStay(cfg, ops, j);
      }
    }
    forall i | 0 <= i < |ops| && LastStart(cfg, ops, i) ensures i < |init| && LastStart(cfg, init, i) {
      StartsStay(cfg, ops, i);
      forall j | i < j < |init| ensures !StartsCooldown(cfg, init, j) {
        StartsStay(cfg, ops, j);
      }
    }
  }

  /** Losses so far, as the counter keeps them. */
  lemma OneResult(cfg: RiskConfig, m: Manager, results: seq<real>, x: real)
    requires m.losses == InStreak(cfg, results)
    ensures var after := NotifyTradeResult(cfg, m, x);
            && after.losses == InStreak(cfg, results + [x])
            && after.cooldown
               == if x < 0.0 && InStreak(cfg, results + [x]) == 0 then cfg.cooldownCandles else m.cooldown
  {
    StreakGrows(results, x);
    assert Cycle(0, StreakLimit(cfg)) == 0;
    CycleSteps(Streak(results), StreakLimit(cfg));
  }

  lemma {:induction false} StreakGrows(results: seq<real>, x: real)
    ensures Streak(results + [x])
         == if x < 0.0 then Streak(results) + 1 else if x > 0.0 then 0 else Streak(results)
  {
    assert (results + [x])[..|results|] == results;
  }

  lemma CandleCounts(cfg: RiskConfig, ops: seq<Operation>, before: Manager, after: Manager)
    requires ops != [] && ops[|ops| - 1].Candle? && Counts(cfg, ops[..|ops| - 1], before)
    requires after.losses == before.losses
    requires after.cooldown == if before.cooldown > 0 then before.cooldown - 1 else before.cooldown
    ensures Counts(cfg, ops, after)
  {
    var init := ops[..|ops| - 1];
    NoNewStart(cfg, ops, init);
    forall i | 0 <= i < |ops| && LastStart(cfg, ops, i)
      ensures after.cooldown == Left(cfg.cooldownCandles, CandlesSince(ops, i))
    {
      assert before.cooldown == Left(cfg.cooldownCandles, CandlesSince(init, i));
    }
  }

  lemma {:induction false} StartsAtEnd(cfg: RiskConfig, ops: seq<Operation>)
    requires ops != []
    ensures var last := ops[|ops| - 1];
            StartsCooldown(cfg, ops, |ops| - 1)
            <==> last.TradeResult? && last.realized < 0.0 && InStreak(cfg, Results(ops)) == 0
  {
    assert ops[..|ops| - 1 + 1] == ops;
  }

  lemma ResultCounts(cfg: RiskConfig, ops: seq<Operation>, init: seq<Operation>, x: real, before: Manager)
    requires ops == init + [TradeResult(x)] && Counts(cfg, init, before)
    ensures Counts(cfg, ops, NotifyTradeResult(cfg, before, x))
  {
    var after := NotifyTradeResult(cfg, before, x);
    assert ops[..|ops| - 1] == init && Results(ops) == Results(init) + [x];
    OneResult(cfg, before, Results(init), x);
    StartsAtEnd(cfg, ops);
    if StartsCooldown(cfg, ops, |ops| - 1) {
      JustStarted(cfg, ops, after);
    } else {
      SameStart(cfg, ops, init, before, after);
    }
  }

  lemma {:induction false} JustStarted(cfg: RiskConfig, ops: seq<Operation>, after: Manager)
    requires ops != [] && StartsCooldown(cfg, ops, |ops| - 1) && after.cooldown == cfg.cooldownCandles
    requires after.losses == InStreak(cfg, Results(ops))
    ensures Counts(cfg, ops, after)
  {
    assert forall i :: 0 <= i < |ops| && LastStart(cfg, ops, i) ==> i == |ops| - 1;
  }

  lemma {:induction false} SameStart(cfg: RiskConfig, ops: seq<Operation>, init: seq<Operation>, before: Manager,
                                     after: Manager)
    requires ops != [] && init == ops[..|ops| - 1] && !ops[|ops| - 1].Candle? && Counts(cfg, init, before)
    requires !StartsCooldown(cfg, ops, |ops| - 1) && after.cooldown == before.cooldown
    requires after.losses == InStreak(cfg, Results(ops))
    ensures Counts(cfg, ops, after)
  {
    NoNewStart(cfg, ops, init);
    forall i | 0 <= i < |ops| && LastStart(cfg, ops, i)
      ensures after.cooldown == Left(cfg.cooldownCandles, CandlesSince(ops, i))
    {
      assert before.cooldown == Left(cfg.cooldownCandles, CandlesSince(init, i));
    }
  }

  lemma HaltCounts(cfg: RiskConfig, ops: seq<Operation>, m: Manager, after: Manager)
    requires ops != [] && ops[|ops| - 1].EngineHalt? && Counts(cfg, ops[..|ops| - 1], m)
    requires after.losses == m.losses && after.cooldown == m.cooldown
    ensures Counts(cfg, ops, after)
  {
    NoNewStart(cfg, ops, ops[..|ops| - 1]);
  }

  lemma {:induction false} CountsAreExact(cfg: RiskConfig, ops: seq<Operation>)
    ensures Counts(cfg, ops, Operated(cfg, FRESH, ops))
  {
    if ops != [] {
      var init, last := ops[..|ops| - 1], ops[|ops| - 1];
      CountsAreExact(cfg, init);
      LastOperation(cfg, FRESH, ops);
      var before := Operated(cfg, FRESH, init);
      match last {
        case Candle(day, floor) => CandleCounts(cfg, ops, before, OnCandle(cfg, before, day, floor));
        case TradeResult(x) =>
          assert ops == init + [TradeResult(x)];
          ResultCounts(cfg, ops, init, x, before);
        case EngineHalt(why) => HaltCounts(cfg, ops, before, Operate(cfg, before, last));
      }
    }
  }

  /** Over any history from a fresh manager: it is halted if and only if the engine halted it or some
      candle's floor had lost the day's whole allowance against the floor its day began with; and a
      cooldown lasts the configured number of candles from the loss that completed a streak. */
  lemma {:induction false} RailAndCooldown(cfg: RiskConfig, ops: seq<Operation>)
    ensures var m := Operated(cfg, FRESH, ops);
            && (m.halted <==> HaltedByEngine(ops) || LossHit(cfg, Readings(ops)))
            && (NeverStarted(cfg, ops) ==> m.cooldown == 0)
            && (forall i :: 0 <= i < |ops| && LastStart(cfg, ops, i) ==>
                  m.cooldown == Left(cfg.cooldownCandles, CandlesSince(ops, i)))
  {
    RailIsExact(cfg, ops);
    CountsAreExact(cfg, ops);
  }
}
