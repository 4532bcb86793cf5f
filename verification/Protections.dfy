/** Which protections are armed after a candle's fill loop, rejected fills included: the venue's sweep
    followed by the engine's rollbacks (kaupo/venues/paper.py, kaupo/core/engine.py). */
module Protections {
  import opened Domain
  import opened Accounting
  import opened PaperVenue
  import opened Engine
  import Risk = RiskManager

  // ----- order numbers -----

  predicate Issued(id: OrderId, next: nat) {
    id.Local? && id.n < next
  }

  /** The order is not what any protection guards, nor an exit that consumed one. */
  ghost predicate Apart(v: VenueState, id: OrderId) {
    && Unguarded(v, id) && id !in v.protByExit
    && (forall x :: x in v.protByExit ==> v.protByExit[x].entry.id != id)
  }

  /** Between candles every id the venue holds was issued, and no waiting order is a guarded entry or an exit. */
  ghost predicate Numbered(v: VenueState) {
    && (forall p :: p in v.protections ==> Issued(p.entry.id, v.nextId))
    && v.newlyArmed == []
    && (forall x :: x in v.protByExit ==> Issued(x, v.nextId) && Issued(v.protByExit[x].entry.id, v.nextId))
    && (forall o :: o in v.marketQueue ==> Issued(o.id, v.nextId) && Apart(v, o.id))
    && (forall o :: o in v.limitOpen ==> Issued(o.id, v.nextId) && Apart(v, o.id))
  }

  /** An order that waited when the candle began. */
  ghost predicate Waited(v: VenueState, id: OrderId) {
    (exists o :: o in v.marketQueue && o.id == id) || (exists o :: o in v.limitOpen && o.id == id)
  }

  // ----- the candle's own fills -----

  /** What market and limit fills leave alone, and where their protections come from. */
  ghost predicate OwnFacts(v: VenueState, pr: Progress) {
    && (forall p :: p in pr.venue.protections ==> p in v.protections)
    && (forall p :: p in pr.venue.newlyArmed ==> p in v.newlyArmed || Waited(v, p.entry.id))
    && pr.venue.protByExit == v.protByExit && pr.venue.nextId == v.nextId
    && (forall f :: f in pr.fills ==> Waited(v, f.orderId) && f.orderId in pr.venue.orders)
  }

  lemma FillOrderFacts(v: VenueState, pr: Progress, o: Order, f: Fill)
    requires OwnFacts(v, pr) && Waited(v, o.id) && f.orderId == o.id
    ensures OwnFacts(v, Progress(FillOrder(pr.venue, o, f), pr.fills + [f]))
  {
    var tracked := TrackPosition(pr.venue, f);
    forall p ensures p in tracked.protections ==> p in v.protections {
      OtherPairsAre(pr.venue.protections, f.pair, p);
    }
    forall p ensures p in tracked.newlyArmed ==> p in pr.venue.newlyArmed {
      OtherPairsAre(pr.venue.newlyArmed, f.pair, p);
    }
  }

  lemma {:induction false} MarketFacts(cfg: VenueConfig, v: VenueState, pr: Progress, queue: seq<Order>, c: Candle)
    requires OwnFacts(v, pr) && forall o :: o in queue ==> Waited(v, o.id)
    ensures OwnFacts(v, MarketPhase(cfg, pr, queue, c))
    decreases |queue|
  {
    if queue != [] {
      FillOrderFacts(v, pr, queue[0], FillMarket(cfg, queue[0], c));
      MarketFacts(cfg, v, MarketStep(cfg, pr, queue[0], c), queue[1..], c);
    }
  }

  lemma {:induction false} LimitFacts(cfg: VenueConfig, v: VenueState, pr: Progress, queue: seq<Order>, c: Candle)
    requires OwnFacts(v, pr) && forall o :: o in queue ==> Waited(v, o.id)
    ensures OwnFacts(v, LimitPhase(cfg, pr, queue, c))
    decreases |queue|
  {
    if queue != [] {
      if LimitOutcome(cfg, queue[0], c).Some? {
        FillOrderFacts(v, pr, queue[0], LimitOutcome(cfg, queue[0], c).value);
      }
      LimitFacts(cfg, v, LimitStep(cfg, pr, queue[0], c), queue[1..], c);
    }
  }

  lemma OwnPhaseFacts(cfg: VenueConfig, v: VenueState, c: Candle)
    ensures OwnFacts(v, OwnPhase(cfg, v, c))
  {
    var start := Progress(PruneOrders(v).(marketQueue := []), []);
    MarketFacts(cfg, v, start, v.marketQueue, c);
    var market := MarketPhase(cfg, start, v.marketQueue, c);
    LimitFacts(cfg, v, market.(venue := market.venue.(limitOpen := [])), v.limitOpen, c);
  }

  // ----- the exits of the sweep -----

  /** An exit of this sweep: a new id, remembered with the protection it consumed. */
  ghost predicate NewExit(v: VenueState, next: nat, ps: seq<Protection>, id: OrderId) {
    && id.Local? && next <= id.n < v.nextId
    && id in v.protByExit && v.protByExit[id] in ps && id in v.orders
  }

  ghost predicate SweepFacts(s: Progress, r: Progress, ps: seq<Protection>) {
    && |s.fills| <= |r.fills| && r.fills[..|s.fills|] == s.fills && s.venue.nextId <= r.venue.nextId
    && (forall k :: |s.fills| <= k < |r.fills| ==> NewExit(r.venue, s.venue.nextId, ps, r.fills[k].orderId))
    && (forall x :: x in r.venue.protByExit ==>
          || (x in s.venue.protByExit && r.venue.protByExit[x] == s.venue.protByExit[x])
          || NewExit(r.venue, s.venue.nextId, ps, x))
    && (forall x :: x in s.venue.protByExit && Issued(x, s.venue.nextId) ==>
          x in r.venue.protByExit && r.venue.protByExit[x] == s.venue.protByExit[x])
    && (forall x :: x in s.venue.orders ==> x in r.venue.orders)
  }

  lemma StepFacts(cfg: VenueConfig, s: Sweep, p: Protection, c: Candle, ps: seq<Protection>)
    requires p in ps
    ensures SweepFacts(s.progress, ProtectionStep(cfg, s, p, c).progress, ps)
  {}

  lemma FactsChain(a: Progress, b: Progress, r: Progress, ps: seq<Protection>)
    requires SweepFacts(a, b, ps) && SweepFacts(b, r, ps)
    ensures SweepFacts(a, r, ps)
  {
    assert r.fills[..|a.fills|] == r.fills[..|b.fills|][..|a.fills|];
    forall k | |a.fills| <= k < |r.fills| ensures NewExit(r.venue, a.venue.nextId, ps, r.fills[k].orderId) {
      if k < |b.fills| {
        assert r.fills[k] == r.fills[..|b.fills|][k];
        assert NewExit(b.venue, a.venue.nextId, ps, b.fills[k].orderId);
      }
    }
    forall x | x in r.venue.protByExit && !(x in a.venue.protByExit && r.venue.protByExit[x] == a.venue.protByExit[x])
      ensures NewExit(r.venue, a.venue.nextId, ps, x)
    {
      assert x in b.venue.protByExit ==> Issued(x, b.venue.nextId) || x in a.venue.protByExit;
    }
  }

  lemma {:induction false} PhaseFacts(cfg: VenueConfig, s: Sweep, rest: seq<Protection>, c: Candle,
                                      ps: seq<Protection>)
    requires forall p :: p in rest ==> p in ps
    ensures SweepFacts(s.progress, ProtectionPhase(cfg, s, rest, c).progress, ps)
    decreases |rest|
  {
    if rest != [] {
      var next := ProtectionStep(cfg, s, rest[0], c);
      StepFacts(cfg, s, rest[0], c, ps);
      PhaseFacts(cfg, next, rest[1..], c, ps);
      FactsChain(s.progress, next.progress, ProtectionPhase(cfg, next, rest[1..], c).progress, ps);
    }
  }

  // ----- the fill loop -----

  /** Rolling back the fill would arm `p` again. */
  predicate Rearms(v: VenueState, f: Fill, p: Protection) {
    f.orderId in v.protByExit && v.protByExit[f.orderId] == p
  }

  /** Some fill from `from` on is rejected; `accepted` is the loop's record. */
  ghost predicate RejectedEntry(fills: seq<Fill>, accepted: seq<bool>, id: OrderId) {
    exists k :: 0 <= k < |fills| && k < |accepted| && !accepted[k] && fills[k].orderId == id
  }

  ghost predicate RejectedExit(v: VenueState, fills: seq<Fill>, accepted: seq<bool>, p: Protection) {
    exists k :: 0 <= k < |fills| && k < |accepted| && !accepted[k] && Rearms(v, fills[k], p)
  }

  /** Every fill's order is on file, and none is the entry of a protection that another fill
      consumed. */
  ghost predicate LoopReady(v: VenueState, fills: seq<Fill>) {
    && (forall f :: f in fills ==> f.orderId in v.orders)
    && (forall f, g :: f in fills && g in fills && f.orderId in v.protByExit ==>
          v.protByExit[f.orderId].entry.id != g.orderId)
  }

  /** What the loop does to the armed protections, by the record of what the ledger accepted. */
  ghost predicate ArmedBy(v: VenueState, after: VenueState, fills: seq<Fill>, accepted: seq<bool>, p: Protection) {
    p in after.protections <==>
      || (p in v.protections && !RejectedEntry(fills, accepted, p.entry.id))
      || RejectedExit(v, fills, accepted, p)
  }

  lemma EntryNowOrLater(fills: seq<Fill>, accepted: seq<bool>, id: OrderId)
    requires fills != [] && |accepted| == |fills|
    ensures RejectedEntry(fills, accepted, id)
       <==> (!accepted[0] && fills[0].orderId == id) || RejectedEntry(fills[1..], accepted[1..], id)
  {
    if RejectedEntry(fills, accepted, id) {
      var k :| 0 <= k < |fills| && !accepted[k] && fills[k].orderId == id;
      if k > 0 {
        assert fills[1..][k - 1] == fills[k] && accepted[1..][k - 1] == accepted[k];
      }
    }
    if RejectedEntry(fills[1..], accepted[1..], id) {
      var k :| 0 <= k < |fills| - 1 && !accepted[1..][k] && fills[1..][k].orderId == id;
      assert fills[k + 1].orderId == id && !accepted[k + 1];
    }
  }

  lemma ExitNowOrLater(v: VenueState, fills: seq<Fill>, accepted: seq<bool>, p: Protection)
    requires fills != [] && |accepted| == |fills|
    ensures RejectedExit(v, fills, accepted, p)
       <==> (!accepted[0] && Rearms(v, fills[0], p)) || RejectedExit(v, fills[1..], accepted[1..], p)
  {
    if RejectedExit(v, fills, accepted, p) {
      var k :| 0 <= k < |fills| && !accepted[k] && Rearms(v, fills[k], p);
      if k > 0 {
        assert fills[1..][k - 1] == fills[k] && accepted[1..][k - 1] == accepted[k];
      }
    }
    if RejectedExit(v, fills[1..], accepted[1..], p) {
      var k :| 0 <= k < |fills| - 1 && !accepted[1..][k] && Rearms(v, fills[1..][k], p);
      assert Rearms(v, fills[k + 1], p) && !accepted[k + 1];
    }
  }

  /** A rolled-back exit is forgotten: later fills of the same id arm nothing more. */
  lemma ExitAfterVoid(v: VenueState, f: Fill, fills: seq<Fill>, accepted: seq<bool>, p: Protection)
    requires |accepted| == |fills|
    ensures RejectedExit(VoidFill(v, f), fills, accepted, p) ==> RejectedExit(v, fills, accepted, p)
    ensures RejectedExit(v, fills, accepted, p) ==> RejectedExit(VoidFill(v, f), fills, accepted, p) || Rearms(v, f, p)
  {
    VoidRestores(v, f);
    var after := VoidFill(v, f);
    if RejectedExit(after, fills, accepted, p) {
      var k :| 0 <= k < |fills| && !accepted[k] && Rearms(after, fills[k], p);
      assert Rearms(v, fills[k], p);
    }
    if RejectedExit(v, fills, accepted, p) {
      var k :| 0 <= k < |fills| && !accepted[k] && Rearms(v, fills[k], p);
      assert fills[k].orderId != f.orderId ==> Rearms(after, fills[k], p);
    }
  }

  /** One rejected fill in front of the rest of the loop. */
  lemma VoidThenLoop(v: VenueState, after: VenueState, fills: seq<Fill>, accepted: seq<bool>, p: Protection)
    requires fills != [] && |accepted| == |fills| && LoopReady(v, fills) && !accepted[0]
    requires ArmedBy(VoidFill(v, fills[0]), after, fills[1..], accepted[1..], p)
    ensures ArmedBy(v, after, fills, accepted, p)
  {
    var f := fills[0];
    VoidRestores(v, f);
    EntryNowOrLater(fills, accepted, p.entry.id);
    ExitNowOrLater(v, fills, accepted, p);
    ExitAfterVoid(v, f, fills[1..], accepted[1..], p);
    if Rearms(v, f, p) {
      NoSuchEntry(v, f, fills, fills[1..], accepted[1..]);
    }
  }

  lemma NoSuchEntry(v: VenueState, f: Fill, fills: seq<Fill>, rest: seq<Fill>, accepted: seq<bool>)
    requires LoopReady(v, fills) && f in fills && f.orderId in v.protByExit
    requires |accepted| == |rest| && forall g :: g in rest ==> g in fills
    ensures !RejectedEntry(rest, accepted, v.protByExit[f.orderId].entry.id)
  {
    forall k | 0 <= k < |rest| ensures rest[k].orderId != v.protByExit[f.orderId].entry.id {
      assert rest[k] in rest;
    }
  }

  lemma KeptThenLoop(v: VenueState, after: VenueState, fills: seq<Fill>, accepted: seq<bool>, p: Protection)
    requires fills != [] && |accepted| == |fills| && accepted[0]
    requires ArmedBy(v, after, fills[1..], accepted[1..], p)
    ensures ArmedBy(v, after, fills, accepted, p)
  {
    EntryNowOrLater(fills, accepted, p.entry.id);
    ExitNowOrLater(v, fills, accepted, p);
  }

  lemma LoopStaysReady(v: VenueState, fills: seq<Fill>)
    requires fills != [] && LoopReady(v, fills)
    ensures LoopReady(v, fills[1..]) && LoopReady(VoidFill(v, fills[0]), fills[1..])
  {
    VoidRestores(v, fills[0]);
    assert forall f :: f in fills[1..] ==> f in fills;
  }

  /** The record of a loop that starts with an empty one. */
  function Answers(cfg: Risk.RiskConfig, s: Settlement, fills: seq<Fill>): seq<bool>
    decreases |fills|
  {
    if fills == [] then []
    else [ApplySpot(s.books, fills[0]).Success?] + Answers(cfg, SettleOne(cfg, s, fills[0]), fills[1..])
  }

  lemma {:induction false} AnswersAre(cfg: Risk.RiskConfig, s: Settlement, fills: seq<Fill>)
    ensures Settle(cfg, s, fills).accepted == s.accepted + Answers(cfg, s, fills)
    ensures |Answers(cfg, s, fills)| == |fills|
    decreases |fills|
  {
    if fills != [] {
      var next := SettleOne(cfg, s, fills[0]);
      AnswersAre(cfg, next, fills[1..]);
      assert next.accepted == s.accepted + [ApplySpot(s.books, fills[0]).Success?];
    }
  }

  /** Over the whole loop a protection is armed exactly when it was and its entry is not rejected,
      or when an exit that consumed it is rejected. */
  lemma {:induction false} ArmedAfterLoop(cfg: Risk.RiskConfig, s: Settlement, fills: seq<Fill>, p: Protection)
    requires LoopReady(s.venue, fills)
    ensures ArmedBy(s.venue, Settle(cfg, s, fills).venue, fills, Answers(cfg, s, fills), p)
    decreases |fills|
  {
    if fills != [] {
      var next, answers := SettleOne(cfg, s, fills[0]), Answers(cfg, s, fills);
      AnswersAre(cfg, s, fills);
      assert answers[1..] == Answers(cfg, next, fills[1..]);
      LoopStaysReady(s.venue, fills);
      ArmedAfterLoop(cfg, next, fills[1..], p);
      if answers[0] {
        KeptThenLoop(s.venue, Settle(cfg, s, fills).venue, fills, answers, p);
      } else {
        VoidThenLoop(s.venue, Settle(cfg, s, fills).venue, fills, answers, p);
      }
    }
  }

  // ----- every run -----

  /** The venue after a candle: nothing waits, every id was issued, and the fill loop can start. */
  ghost predicate CandleDone(v: VenueState, fills: seq<Fill>) {
    Numbered(v) && v.marketQueue == [] && v.limitOpen == [] && LoopReady(v, fills)
  }

  lemma WaitingIds(v: VenueState, id: OrderId)
    requires Numbered(v) && Waited(v, id)
    ensures Issued(id, v.nextId) && Apart(v, id)
  {}

  lemma CandleReady(cfg: VenueConfig, v: VenueState, c: Candle)
    requires Numbered(v)
    ensures CandleDone(OnCandle(cfg, v, c).venue, OnCandle(cfg, v, c).fills)
  {
    var own, pr := OwnPhase(cfg, v, c), OnCandle(cfg, v, c);
    var ps := own.venue.protections;
    var swept := ProtectionPhase(cfg, Sweep(own, []), ps, c).progress;
    OwnPhaseFacts(cfg, v, c);
    PhaseFacts(cfg, Sweep(own, []), ps, c, ps);
    QueuesEmpty(cfg, v, c);
    forall p | p in pr.venue.protections ensures Issued(p.entry.id, pr.venue.nextId) {
      ArmedSource(cfg, v, c, p);
    }
    ExitsReady(v, own, swept, ps);
  }

  /** What is armed after a candle was armed before it, or is of an entry the candle filled. */
  lemma ArmedSource(cfg: VenueConfig, v: VenueState, c: Candle, p: Protection)
    requires Numbered(v) && p in OnCandle(cfg, v, c).venue.protections
    ensures Issued(p.entry.id, v.nextId)
  {
    ArmedAfterCandle(cfg, v, c, p);
    OwnPhaseFacts(cfg, v, c);
    if Waited(v, p.entry.id) {
      WaitingIds(v, p.entry.id);
    }
  }

  lemma ExitsReady(v: VenueState, own: Progress, swept: Progress, ps: seq<Protection>)
    requires Numbered(v) && OwnFacts(v, own) && ps == own.venue.protections && SweepFacts(own, swept, ps)
    ensures LoopReady(swept.venue, swept.fills)
    ensures forall x :: x in swept.venue.protByExit ==>
              Issued(x, swept.venue.nextId) && Issued(swept.venue.protByExit[x].entry.id, swept.venue.nextId)
  {
    forall f | f in swept.fills ensures f.orderId in swept.venue.orders {
      FillSource(v, own, swept, ps, f);
    }
    forall f, g | f in swept.fills && g in swept.fills && f.orderId in swept.venue.protByExit
      ensures swept.venue.protByExit[f.orderId].entry.id != g.orderId
    {
      FillSource(v, own, swept, ps, f);
      FillSource(v, own, swept, ps, g);
      assert swept.venue.protByExit[f.orderId] in v.protections;
    }
  }

  /** A fill of the candle is of an order that waited, or an exit with a new id. */
  lemma FillSource(v: VenueState, own: Progress, swept: Progress, ps: seq<Protection>, f: Fill)
    requires Numbered(v) && OwnFacts(v, own) && ps == own.venue.protections && SweepFacts(own, swept, ps)
    requires f in swept.fills
    ensures f.orderId in swept.venue.orders
    ensures if Waited(v, f.orderId)
            then Issued(f.orderId, v.nextId) && Apart(v, f.orderId) && f.orderId !in swept.venue.protByExit
            else NewExit(swept.venue, v.nextId, ps, f.orderId)
  {
    var k :| 0 <= k < |swept.fills| && swept.fills[k] == f;
    if k < |own.fills| {
      assert own.fills[k] == swept.fills[..|own.fills|][k] && own.fills[k] in own.fills;
    }
    if Waited(v, f.orderId) {
      WaitingIds(v, f.orderId);
    }
  }

  lemma {:induction false} MarketEmpties(cfg: VenueConfig, pr: Progress, queue: seq<Order>, c: Candle)
    ensures var r := MarketPhase(cfg, pr, queue, c).venue;
            r.marketQueue == pr.venue.marketQueue && r.limitOpen == pr.venue.limitOpen
    decreases |queue|
  {
    if queue != [] {
      MarketEmpties(cfg, MarketStep(cfg, pr, queue[0], c), queue[1..], c);
    }
  }

  lemma {:induction false} LimitEmpties(cfg: VenueConfig, pr: Progress, queue: seq<Order>, c: Candle)
    ensures var r := LimitPhase(cfg, pr, queue, c).venue;
            r.marketQueue == pr.venue.marketQueue && r.limitOpen == pr.venue.limitOpen
    decreases |queue|
  {
    if queue != [] {
      LimitEmpties(cfg, LimitStep(cfg, pr, queue[0], c), queue[1..], c);
    }
  }

  lemma {:induction false} SweepEmpties(cfg: VenueConfig, s: Sweep, ps: seq<Protection>, c: Candle)
    ensures var r := ProtectionPhase(cfg, s, ps, c).progress.venue;
            r.marketQueue == s.progress.venue.marketQueue && r.limitOpen == s.progress.venue.limitOpen
    decreases |ps|
  {
    if ps != [] {
      SweepEmpties(cfg, ProtectionStep(cfg, s, ps[0], c), ps[1..], c);
    }
  }

  lemma QueuesEmpty(cfg: VenueConfig, v: VenueState, c: Candle)
    ensures OnCandle(cfg, v, c).venue.marketQueue == [] && OnCandle(cfg, v, c).venue.limitOpen == []
  {
    var start := Progress(PruneOrders(v).(marketQueue := []), []);
    MarketEmpties(cfg, start, v.marketQueue, c);
    var market := MarketPhase(cfg, start, v.marketQueue, c);
    LimitEmpties(cfg, market.(venue := market.venue.(limitOpen := [])), v.limitOpen, c);
    var own := OwnPhase(cfg, v, c);
    SweepEmpties(cfg, Sweep(own, []), own.venue.protections, c);
  }

  /** A rollback issues no id and arms nothing unknown. */
  lemma VoidNumbered(v: VenueState, f: Fill)
    requires Numbered(v) && v.marketQueue == [] && v.limitOpen == []
    ensures var after := VoidFill(v, f); Numbered(after) && after.marketQueue == [] && after.limitOpen == []
  {
    VoidRestores(v, f);
    var after := VoidFill(v, f);
  }

  lemma {:induction false} LoopNumbered(cfg: Risk.RiskConfig, s: Settlement, fills: seq<Fill>)
    requires Numbered(s.venue) && s.venue.marketQueue == [] && s.venue.limitOpen == []
    ensures var v := Settle(cfg, s, fills).venue; Numbered(v) && v.marketQueue == [] && v.limitOpen == []
    decreases |fills|
  {
    if fills != [] {
      VoidNumbered(s.venue, fills[0]);
      LoopNumbered(cfg, SettleOne(cfg, s, fills[0]), fills[1..]);
    }
  }

  lemma FillsNumbered(cfg: EngineConfig, s: EngineState, c: Candle)
    requires Numbered(s.venue)
    ensures Numbered(AfterFills(cfg, s, c).venue)
  {
    CandleReady(cfg.venue, s.venue, c);
    var pr := OnCandle(cfg.venue, s.venue, c);
    LoopNumbered(cfg.risk, Settlement(pr.venue.(newOrders := [], expired := []), s.books, s.risk, []), pr.fills);
  }

  lemma {:induction false} SubmitNumbered(v: VenueState, batch: seq<Risk.Assessment>, ts: int)
    requires Numbered(v)
    ensures Numbered(SubmitAll(v, batch, ts))
    decreases |batch|
  {
    if batch != [] {
      if batch[0].decision.Refused? {
        SubmitNumbered(v, batch[1..], ts);
      } else {
        OneSubmitted(v, OrderFrom(batch[0], ts, v.nextId));
        SubmitNumbered(Submit(v, OrderFrom(batch[0], ts, v.nextId)).(nextId := v.nextId + 1), batch[1..], ts);
      }
    }
  }

  lemma OneSubmitted(v: VenueState, o: Order)
    requires Numbered(v) && o.id == Local(v.nextId)
    ensures Numbered(Submit(v, o).(nextId := v.nextId + 1))
  {
    var after := Submit(v, o).(nextId := v.nextId + 1);
    assert Apart(v, o.id);
    forall x | x in after.marketQueue ensures Issued(x.id, after.nextId) && Apart(after, x.id) {
      assert x in v.marketQueue || x == o;
      SameGuards(v, after, x.id);
    }
    forall x | x in after.limitOpen ensures Issued(x.id, after.nextId) && Apart(after, x.id) {
      assert x in v.limitOpen || x == o;
      SameGuards(v, after, x.id);
    }
  }

  lemma SameGuards(v: VenueState, w: VenueState, id: OrderId)
    requires v.protections == w.protections && v.newlyArmed == w.newlyArmed && v.protByExit == w.protByExit
    ensures Apart(v, id) <==> Apart(w, id)
  {}

  lemma {:induction false} RunNumbered(cfg: EngineConfig, s: EngineState, inputs: seq<Input>)
    requires cfg.risk.costRate != -1.0 && Numbered(s.venue)
    ensures Numbered(Run(cfg, s, inputs).venue)
    decreases |inputs|
  {
    if inputs != [] && !s.killed && !s.risk.halted {
      var i, t := inputs[0], AfterFills(cfg, s, inputs[0].candle);
      FillsNumbered(cfg, s, i.candle);
      var st := RiskStateAt(cfg, t.books, i.candle);
      var risk := Risk.OnCandle(cfg.risk, t.risk, st.day, Risk.FloorEquity(st));
      SubmitNumbered(t.venue, Risk.AssessSpot(cfg.risk, risk.cooldown, i.intents, st), i.candle.ts);
      RunNumbered(cfg, Step(cfg, s, i), inputs[1..]);
    }
  }

  /** Over every run, exactly what is armed when a candle's fill loop is done. A protection is armed
      if its turn in the sweep left it armed, or if an entry of this candle armed it and no exit sold
      its pair out, unless the ledger rejected its entry; or if the ledger rejected the exit that
      consumed it. */
  lemma {:induction false} ArmedAfterEveryCandle(cfg: EngineConfig, opening: Books, risk: Risk.Manager,
                                                 inputs: seq<Input>, c: Candle, p: Protection)
    requires cfg.risk.costRate != -1.0
    ensures var s := Run(cfg, Start(opening, risk), inputs);
            var own, pr, t := OwnPhase(cfg.venue, s.venue, c), OnCandle(cfg.venue, s.venue, c), AfterFills(cfg, s, c);
            && |t.accepted| == |pr.fills|
            && (p in t.venue.protections <==>
                  || (ArmedByCandle(cfg.venue, own, c, p) && !RejectedEntry(pr.fills, t.accepted, p.entry.id))
                  || RejectedExit(pr.venue, pr.fills, t.accepted, p))
  {
    var s := Run(cfg, Start(opening, risk), inputs);
    RunNumbered(cfg, Start(opening, risk), inputs);
    CandleReady(cfg.venue, s.venue, c);
    ArmedAfterCandle(cfg.venue, s.venue, c, p);
    var pr := OnCandle(cfg.venue, s.venue, c);
    var start := Settlement(pr.venue.(newOrders := [], expired := []), s.books, s.risk, []);
    ArmedAfterLoop(cfg.risk, start, pr.fills, p);
    AnswersAre(cfg.risk, start, pr.fills);
    assert [] + Answers(cfg.risk, start, pr.fills) == Answers(cfg.risk, start, pr.fills);
    SameExits(start.venue, pr.venue, pr.fills, AfterFills(cfg, s, c).accepted, p);
  }

  lemma SameExits(v: VenueState, w: VenueState, fills: seq<Fill>, accepted: seq<bool>, p: Protection)
    requires v.protByExit == w.protByExit
    ensures RejectedExit(v, fills, accepted, p) <==> RejectedExit(w, fills, accepted, p)
  {
    forall k | 0 <= k < |fills| ensures Rearms(v, fills[k], p) <==> Rearms(w, fills[k], p) {
    }
  }

  /** Whenever something is tracked at its turn, the candle does not trigger the protection. */
  ghost predicate NeverTriggers(cfg: VenueConfig, own: Progress, c: Candle, p: Protection) {
    var ps := own.venue.protections;
    forall j :: 0 <= j < |ps| && ps[j] == p ==>
      var v := AtTurn(cfg, Sweep(own, []), ps, c, j);
      PositionAt(v, p.entry.pair) > 0.0 ==> CheckProtection(cfg, v, p, c).None?
  }

  /** Every turn of the protection came when nothing of its pair was tracked. */
  ghost predicate NothingTrackedAtTurn(cfg: VenueConfig, own: Progress, c: Candle, p: Protection) {
    var ps := own.venue.protections;
    forall j :: 0 <= j < |ps| && ps[j] == p ==> PositionAt(AtTurn(cfg, Sweep(own, []), ps, c, j), p.entry.pair) <= 0.0
  }

  /** So over every run an armed protection that the candle does not trigger is lost exactly when its
      turn in the sweep came when nothing was tracked, whatever the ledger rejects afterwards; only
      the rollback of an exit that had consumed the very same protection arms it again. */
  lemma {:induction false} LostExactly(cfg: EngineConfig, opening: Books, risk: Risk.Manager, inputs: seq<Input>,
                                       c: Candle, p: Protection)
    requires cfg.risk.costRate != -1.0
    requires var own := OwnPhase(cfg.venue, Run(cfg, Start(opening, risk), inputs).venue, c);
             p in own.venue.protections && NeverTriggers(cfg.venue, own, c, p)
    ensures var s := Run(cfg, Start(opening, risk), inputs);
            var own, pr, t := OwnPhase(cfg.venue, s.venue, c), OnCandle(cfg.venue, s.venue, c), AfterFills(cfg, s, c);
            p !in t.venue.protections
            <==> NothingTrackedAtTurn(cfg.venue, own, c, p) && !RejectedExit(pr.venue, pr.fills, t.accepted, p)
  {
    var s := Run(cfg, Start(opening, risk), inputs);
    ArmedAfterEveryCandle(cfg, opening, risk, inputs, c, p);
    RunNumbered(cfg, Start(opening, risk), inputs);
    OldProtection(cfg.venue, s.venue, c, p, AfterFills(cfg, s, c).accepted);
    KeptOrNothingTracked(cfg.venue, OwnPhase(cfg.venue, s.venue, c), c, p);
  }

  lemma KeptOrNothingTracked(cfg: VenueConfig, own: Progress, c: Candle, p: Protection)
    requires NeverTriggers(cfg, own, c, p)
    ensures KeptAtTurn(cfg, Sweep(own, []), own.venue.protections, c, p) <==> !NothingTrackedAtTurn(cfg, own, c, p)
  {
    var s, ps := Sweep(own, []), own.venue.protections;
    if !NothingTrackedAtTurn(cfg, own, c, p) {
      var j :| 0 <= j < |ps| && ps[j] == p && PositionAt(AtTurn(cfg, s, ps, c, j), p.entry.pair) > 0.0;
      assert StaysArmed(cfg, AtTurn(cfg, s, ps, c, j), p, c);
    }
  }

  /** A protection from before the candle: the candle neither arms nor rejects its entry. */
  lemma OldProtection(cfg: VenueConfig, v: VenueState, c: Candle, p: Protection, accepted: seq<bool>)
    requires Numbered(v) && p in OwnPhase(cfg, v, c).venue.protections
    ensures p !in OwnPhase(cfg, v, c).venue.newlyArmed
    ensures !RejectedEntry(OnCandle(cfg, v, c).fills, accepted, p.entry.id)
  {
    var own := OwnPhase(cfg, v, c);
    var ps := own.venue.protections;
    var swept := ProtectionPhase(cfg, Sweep(own, []), ps, c).progress;
    OwnPhaseFacts(cfg, v, c);
    PhaseFacts(cfg, Sweep(own, []), ps, c, ps);
    if p in own.venue.newlyArmed {
      WaitingIds(v, p.entry.id);
    }
    forall k | 0 <= k < |swept.fills| ensures swept.fills[k].orderId != p.entry.id {
      FillSource(v, own, swept, ps, swept.fills[k]);
    }
  }
}
