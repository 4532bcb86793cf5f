/** The live candle joiner and the warm-up chain in front of it (kaupo/core/runner.py). */
module UniverseJoiner {
  import opened Domain
  import opened Keys
  import opened PortfolioSteps

  /** Buffered steps by timestamp, their grace deadlines, and the last step sent out. */
  datatype Buffers = Buffers(pending: map<int, map<Pair, Candle>>, deadlines: map<int, int>, lastEmitted: Option<int>)

  datatype Fate = Accepted | Late | Duplicate

  function FateOf(b: Buffers, p: Pair, c: Candle): Fate {
    if b.lastEmitted.Some? && c.ts <= b.lastEmitted.value then Late
    else if c.ts in b.pending && p in b.pending[c.ts] then Duplicate
    else Accepted
  }

  /** Buffering one candle at clock reading `now`. */
  function Buffered(b: Buffers, p: Pair, c: Candle, now: int, grace: int): Buffers {
    if !FateOf(b, p, c).Accepted? then b
    else
      var step := if c.ts in b.pending then b.pending[c.ts] else map[];
      Buffers(b.pending[c.ts := step[p := c]],
              if c.ts in b.deadlines then b.deadlines else b.deadlines[c.ts := now + grace],
              b.lastEmitted)
  }

  // ----- earliest pending step -----

  /** The pending steps in timestamp order. */
  ghost function InOrder(pending: map<int, map<Pair, Candle>>): seq<Step>
    decreases |pending|
  {
    if pending == map[] then []
    else
      var ts := MinKey(pending.Keys);
      [Step(ts, pending[ts])] + InOrder(pending - {ts})
  }

  ghost predicate PendingWellFormed(pending: map<int, map<Pair, Candle>>) {
    forall ts :: ts in pending ==> WellFormed(Step(ts, pending[ts]))
  }

  predicate InPending(pending: map<int, map<Pair, Candle>>, p: Pair, c: Candle) {
    c.ts in pending && p in pending[c.ts] && pending[c.ts][p] == c
  }

  lemma {:induction false} InOrderIsCanonical(pending: map<int, map<Pair, Candle>>)
    requires PendingWellFormed(pending)
    ensures Canonical(InOrder(pending))
    ensures forall k :: 0 <= k < |InOrder(pending)| ==> InOrder(pending)[k].ts in pending
    decreases |pending|
  {
    if pending != map[] {
      var ts := MinKey(pending.Keys);
      InOrderIsCanonical(pending - {ts});
    }
  }

  lemma HoldsAppend(a: seq<Step>, b: seq<Step>, p: Pair, c: Candle)
    ensures Holds(a + b, p, c) <==> Holds(a, p, c) || Holds(b, p, c)
  {
    if Holds(a + b, p, c) {
      var k :| 0 <= k < |a + b| && p in (a + b)[k].candles && (a + b)[k].candles[p] == c;
      assert k >= |a| ==> b[k - |a|] == (a + b)[k];
    }
    if Holds(a, p, c) {
      var k :| 0 <= k < |a| && p in a[k].candles && a[k].candles[p] == c;
      assert (a + b)[k] == a[k];
    }
    if Holds(b, p, c) {
      var k :| 0 <= k < |b| && p in b[k].candles && b[k].candles[p] == c;
      assert (a + b)[|a| + k] == b[k];
    }
  }

  lemma HoldsOne(step: Step, p: Pair, c: Candle)
    ensures Holds([step], p, c) <==> p in step.candles && step.candles[p] == c
  {
    assert [step][0] == step;
  }

  lemma {:induction false} InOrderHolds(pending: map<int, map<Pair, Candle>>, p: Pair, c: Candle)
    requires PendingWellFormed(pending)
    ensures Holds(InOrder(pending), p, c) <==> InPending(pending, p, c)
    decreases |pending|
  {
    if pending != map[] {
      var ts := MinKey(pending.Keys);
      InOrderHolds(pending - {ts}, p, c);
      HoldsAppend([Step(ts, pending[ts])], InOrder(pending - {ts}), p, c);
      HoldsOne(Step(ts, pending[ts]), p, c);
      assert WellFormed(Step(ts, pending[ts]));
    }
  }

  // ----- the emission sweep -----

  predicate Tracked(b: Buffers) {
    b.deadlines.Keys == b.pending.Keys
  }

  predicate Ready(b: Buffers, ts: int, pollers: nat, now: int)
    requires ts in b.pending && ts in b.deadlines
  {
    |b.pending[ts]| == pollers || b.deadlines[ts] <= now
  }

  function Emitted(b: Buffers, ts: int): Buffers {
    Buffers(b.pending - {ts}, b.deadlines - {ts}, Some(ts))
  }

  datatype Swept = Swept(steps: seq<Step>, buffers: Buffers)

  /** Send out pending steps in time order until one is neither complete nor due; `clock(k)`
      is the k-th clock reading of the sweep. */
  ghost function Sweep(b: Buffers, pollers: nat, clock: nat -> int, k: nat): Swept
    requires Tracked(b)
    decreases |b.pending|
  {
    if b.pending == map[] then Swept([], b)
    else
      var ts := MinKey(b.pending.Keys);
      if !Ready(b, ts, pollers, clock(k)) then Swept([], b)
      else
        var rest := Sweep(Emitted(b, ts), pollers, clock, k + 1);
        Swept([Step(ts, b.pending[ts])] + rest.steps, rest.buffers)
  }

  /** A sweep only moves steps from the front of the buffer to the output. */
  lemma {:induction false} SweepMoves(b: Buffers, pollers: nat, clock: nat -> int, k: nat)
    requires Tracked(b)
    ensures var r := Sweep(b, pollers, clock, k);
            && r.steps + InOrder(r.buffers.pending) == InOrder(b.pending)
            && Tracked(r.buffers)
            && r.buffers.pending.Keys <= b.pending.Keys && r.buffers.deadlines.Keys <= b.deadlines.Keys
            && (forall ts :: ts in r.buffers.pending ==> r.buffers.pending[ts] == b.pending[ts])
            && (forall ts :: ts in r.buffers.deadlines ==> r.buffers.deadlines[ts] == b.deadlines[ts])
            && r.buffers.lastEmitted == (if r.steps == [] then b.lastEmitted else Some(r.steps[|r.steps| - 1].ts))
    decreases |b.pending|
  {
    if b.pending != map[] {
      var ts := MinKey(b.pending.Keys);
      if Ready(b, ts, pollers, clock(k)) {
        SweepMoves(Emitted(b, ts), pollers, clock, k + 1);
        var rest := Sweep(Emitted(b, ts), pollers, clock, k + 1);
        Regroup([Step(ts, b.pending[ts])], rest.steps, InOrder(rest.buffers.pending));
      }
    }
  }

  /** Each step was complete, or past its deadline, when the clock read `clock(k + j)`. */
  ghost predicate AllReady(b: Buffers, steps: seq<Step>, pollers: nat, clock: nat -> int, k: nat)
    requires Tracked(b)
  {
    forall j :: 0 <= j < |steps| ==>
        steps[j].ts in b.pending
        && (|steps[j].candles| == pollers || b.deadlines[steps[j].ts] <= clock(k + j))
  }

  lemma ReadyAfterFirst(b: Buffers, ts: int, rest: seq<Step>, pollers: nat, clock: nat -> int, k: nat)
    requires Tracked(b) && ts in b.pending && Ready(b, ts, pollers, clock(k))
    requires AllReady(Emitted(b, ts), rest, pollers, clock, k + 1)
    ensures AllReady(b, [Step(ts, b.pending[ts])] + rest, pollers, clock, k)
  {
    var steps := [Step(ts, b.pending[ts])] + rest;
    forall j | 0 <= j < |steps|
      ensures steps[j].ts in b.pending
              && (|steps[j].candles| == pollers || b.deadlines[steps[j].ts] <= clock(k + j))
    {
      if j > 0 {
        assert steps[j] == rest[j - 1] && k + 1 + (j - 1) == k + j;
      }
    }
  }

  /** The step in front is neither complete nor due. */
  ghost predicate Stops(b: Buffers, pollers: nat, now: int) {
    b.pending == map[]
    || (Tracked(b)
        && var front := MinKey(b.pending.Keys); |b.pending[front]| != pollers && now < b.deadlines[front])
  }

  ghost predicate Prompt(b: Buffers, r: Swept, pollers: nat, clock: nat -> int, k: nat)
    requires Tracked(b)
  {
    AllReady(b, r.steps, pollers, clock, k) && Stops(r.buffers, pollers, clock(k + |r.steps|))
  }

  /** Every step sent out was complete or past its deadline, and the step left in front is neither. */
  lemma {:induction false} SweepIsPrompt(b: Buffers, pollers: nat, clock: nat -> int, k: nat)
    requires Tracked(b)
    ensures Prompt(b, Sweep(b, pollers, clock, k), pollers, clock, k)
    decreases |b.pending|
  {
    if Stops(b, pollers, clock(k)) {
      NothingSent(b, pollers, clock, k);
    } else {
      var ts := MinKey(b.pending.Keys);
      SweepIsPrompt(Emitted(b, ts), pollers, clock, k + 1);
      PromptAfterFirst(b, Sweep(Emitted(b, ts), pollers, clock, k + 1), pollers, clock, k);
    }
  }

  lemma PromptAfterFirst(b: Buffers, rest: Swept, pollers: nat, clock: nat -> int, k: nat)
    requires Tracked(b) && !Stops(b, pollers, clock(k))
    requires Prompt(Emitted(b, MinKey(b.pending.Keys)), rest, pollers, clock, k + 1)
    ensures var ts := MinKey(b.pending.Keys);
            Prompt(b, Swept([Step(ts, b.pending[ts])] + rest.steps, rest.buffers), pollers, clock, k)
  {
    var ts := MinKey(b.pending.Keys);
    ReadyAfterFirst(b, ts, rest.steps, pollers, clock, k);
    assert k + 1 + |rest.steps| == k + |[Step(ts, b.pending[ts])] + rest.steps|;
  }

  lemma {:induction false} NothingSent(b: Buffers, pollers: nat, clock: nat -> int, k: nat)
    requires Tracked(b) && Stops(b, pollers, clock(k))
    ensures Sweep(b, pollers, clock, k) == Swept([], b)
  {}

  /** The rest of a sweep that has already sent `sent`. */
  ghost function Continued(sent: seq<Step>, b: Buffers, pollers: nat, clock: nat -> int): Swept
    requires Tracked(b)
  {
    var rest := Sweep(b, pollers, clock, |sent|);
    Swept(sent + rest.steps, rest.buffers)
  }

  lemma SendOne(sent: seq<Step>, b: Buffers, pollers: nat, clock: nat -> int)
    requires Tracked(b) && b.pending != map[] && Ready(b, MinKey(b.pending.Keys), pollers, clock(|sent|))
    ensures var ts := MinKey(b.pending.Keys);
            Continued(sent + [Step(ts, b.pending[ts])], Emitted(b, ts), pollers, clock)
                == Continued(sent, b, pollers, clock)
  {
    var ts := MinKey(b.pending.Keys);
    Regroup(sent, [Step(ts, b.pending[ts])], Sweep(Emitted(b, ts), pollers, clock, |sent| + 1).steps);
  }

  // ----- every run of the joiner -----

  datatype Arrival = Arrival(pair: Pair, candle: Candle, now: int, fate: Fate)

  datatype Event = Arrive(pair: Pair, candle: Candle, now: int) | Emission(clock: nat -> int)

  /** The buffers, everything that ever arrived with what became of it, and the output. */
  datatype Run = Run(buffers: Buffers, arrivals: seq<Arrival>, emitted: seq<Step>)

  const FRESH := Run(Buffers(map[], map[], None), [], [])

  ghost function Next(r: Run, e: Event, pollers: nat, grace: int): Run
    requires Tracked(r.buffers)
  {
    match e
    case Arrive(p, c, now) =>
      Run(Buffered(r.buffers, p, c, now, grace),
          r.arrivals + [Arrival(p, c, now, FateOf(r.buffers, p, c))], r.emitted)
    case Emission(clock) =>
      var s := Sweep(r.buffers, pollers, clock, 0);
      Run(s.buffers, r.arrivals, r.emitted + s.steps)
  }

  ghost function After(events: seq<Event>, pollers: nat, grace: int): (r: Run)
    ensures Tracked(r.buffers)
  {
    if events == [] then FRESH
    else
      var before := After(events[..|events| - 1], pollers, grace);
      var e := events[|events| - 1];
      if e.Emission? then SweepMoves(before.buffers, pollers, e.clock, 0); Next(before, e, pollers, grace)
      else Next(before, e, pollers, grace)
  }

  /** The candles of `p` that arrived, and those that were not dropped, in arrival order. */
  function ArrivalsOf(arrivals: seq<Arrival>, p: Pair): seq<Candle> {
    if arrivals == [] then []
    else
      var a := arrivals[|arrivals| - 1];
      ArrivalsOf(arrivals[..|arrivals| - 1], p) + (if a.pair == p then [a.candle] else [])
  }

  function AcceptedOf(arrivals: seq<Arrival>, p: Pair): seq<Candle> {
    if arrivals == [] then []
    else
      var a := arrivals[|arrivals| - 1];
      AcceptedOf(arrivals[..|arrivals| - 1], p) + (if a.pair == p && a.fate.Accepted? then [a.candle] else [])
  }

  /** Output and buffer together, in time order. */
  ghost function All(r: Run): seq<Step> {
    r.emitted + InOrder(r.buffers.pending)
  }

  predicate DistinctTimes(candles: seq<Candle>) {
    forall i, j :: 0 <= i < j < |candles| ==> candles[i].ts != candles[j].ts
  }

  /** Buffered steps are well formed and later than everything sent out. */
  ghost predicate Ordered(r: Run) {
    && PendingWellFormed(r.buffers.pending) && Canonical(r.emitted)
    && r.buffers.lastEmitted == (if r.emitted == [] then None else Some(r.emitted[|r.emitted| - 1].ts))
    && (forall ts, k :: ts in r.buffers.pending && 0 <= k < |r.emitted| ==> r.emitted[k].ts < ts)
  }

  /** The accepted candles of a pair are exactly those sent out or still buffered, once each. */
  ghost predicate AcceptedOnce(r: Run, p: Pair) {
    && DistinctTimes(AcceptedOf(r.arrivals, p))
    && (forall c :: c in AcceptedOf(r.arrivals, p) <==> Holds(All(r), p, c))
  }

  ghost predicate Invariant(r: Run) {
    Tracked(r.buffers) && Ordered(r) && forall p :: AcceptedOnce(r, p)
  }

  lemma AllIsCanonical(r: Run)
    requires Ordered(r)
    ensures Canonical(All(r))
  {
    InOrderIsCanonical(r.buffers.pending);
  }

  /** An emitted candle is late for its pair ever after. */
  lemma HeldIsRefused(r: Run, p: Pair, c: Candle, held: Candle)
    requires Ordered(r) && Holds(All(r), p, held) && held.ts == c.ts
    ensures !FateOf(r.buffers, p, c).Accepted?
  {
    HoldsAppend(r.emitted, InOrder(r.buffers.pending), p, held);
    InOrderHolds(r.buffers.pending, p, held);
    if Holds(r.emitted, p, held) {
      var k :| 0 <= k < |r.emitted| && p in r.emitted[k].candles && r.emitted[k].candles[p] == held;
      assert WellFormed(r.emitted[k]);
      assert k < |r.emitted| - 1 ==> r.emitted[k].ts < r.emitted[|r.emitted| - 1].ts;
    }
  }

  lemma BufferHolds(r: Run, p: Pair, c: Candle, now: int, grace: int, q: Pair, d: Candle)
    requires Tracked(r.buffers) && Ordered(r) && FateOf(r.buffers, p, c).Accepted?
    ensures var r' := Next(r, Arrive(p, c, now), 0, grace);
            PendingWellFormed(r'.buffers.pending)
            && (Holds(All(r'), q, d) <==> Holds(All(r), q, d) || (q == p && d == c))
  {
    var r' := Next(r, Arrive(p, c, now), 0, grace);
    BufferedIsWellFormed(r.buffers, p, c, now, grace);
    HoldsAppend(r.emitted, InOrder(r.buffers.pending), q, d);
    HoldsAppend(r.emitted, InOrder(r'.buffers.pending), q, d);
    InOrderHolds(r.buffers.pending, q, d);
    InOrderHolds(r'.buffers.pending, q, d);
  }

  lemma BufferedIsWellFormed(b: Buffers, p: Pair, c: Candle, now: int, grace: int)
    requires PendingWellFormed(b.pending)
    ensures PendingWellFormed(Buffered(b, p, c, now, grace).pending)
  {
    var b' := Buffered(b, p, c, now, grace);
    forall ts | ts in b'.pending ensures WellFormed(Step(ts, b'.pending[ts])) {
      if ts in b.pending {
        assert WellFormed(Step(ts, b.pending[ts]));
      }
      assert ts == c.ts && FateOf(b, p, c).Accepted? ==> p in b'.pending[ts];
    }
  }

  lemma {:induction false} AcceptedGrows(arrivals: seq<Arrival>, a: Arrival, p: Pair)
    ensures AcceptedOf(arrivals + [a], p)
         == AcceptedOf(arrivals, p) + (if a.pair == p && a.fate.Accepted? then [a.candle] else [])
    ensures ArrivalsOf(arrivals + [a], p) == ArrivalsOf(arrivals, p) + (if a.pair == p then [a.candle] else [])
  {
    assert (arrivals + [a])[..|arrivals|] == arrivals;
  }

  lemma ArriveKeeps(r: Run, p: Pair, c: Candle, now: int, pollers: nat, grace: int)
    requires Invariant(r)
    ensures Invariant(Next(r, Arrive(p, c, now), pollers, grace))
  {
    var r' := Next(r, Arrive(p, c, now), pollers, grace);
    var a := Arrival(p, c, now, FateOf(r.buffers, p, c));
    forall q ensures AcceptedOnce(r', q) {
      AcceptedGrows(r.arrivals, a, q);
      assert AcceptedOnce(r, q);
      if a.fate.Accepted? {
        forall d ensures Holds(All(r'), q, d) <==> Holds(All(r), q, d) || (q == p && d == c) {
          BufferHolds(r, p, c, now, grace, q, d);
        }
        if q == p {
          NewTime(r, p, c);
        }
      }
    }
    BufferedIsWellFormed(r.buffers, p, c, now, grace);
    assert forall k :: a.fate.Accepted? && 0 <= k < |r.emitted| - 1 ==> r.emitted[k].ts < r.emitted[|r.emitted| - 1].ts;
  }

  /** An accepted candle brings a new time to its pair. */
  lemma {:induction false} NewTime(r: Run, p: Pair, c: Candle)
    requires Ordered(r) && AcceptedOnce(r, p) && FateOf(r.buffers, p, c).Accepted?
    ensures forall i :: 0 <= i < |AcceptedOf(r.arrivals, p)| ==> AcceptedOf(r.arrivals, p)[i].ts != c.ts
  {
    forall i | 0 <= i < |AcceptedOf(r.arrivals, p)| ensures AcceptedOf(r.arrivals, p)[i].ts != c.ts {
      var held := AcceptedOf(r.arrivals, p)[i];
      assert held in AcceptedOf(r.arrivals, p);
      if held.ts == c.ts {
        HeldIsRefused(r, p, c, held);
      }
    }
  }

  /** A candle is accepted exactly when nothing at or after its time was sent out and its pair has
      no candle of that time yet; then output and buffer hold it and nothing else new. A refused
      candle changes neither. */
  lemma ArrivalIsFiled(r: Run, p: Pair, c: Candle, now: int, pollers: nat, grace: int)
    requires Invariant(r)
    ensures var accepted := FateOf(r.buffers, p, c).Accepted?;
            var r' := Next(r, Arrive(p, c, now), pollers, grace);
            && (accepted <==> NothingSentFrom(r, c.ts) && HasNoCandleAt(r, p, c.ts))
            && r'.emitted == r.emitted && (!accepted ==> r'.buffers == r.buffers)
            && (forall q, d :: Holds(All(r'), q, d) <==> Holds(All(r), q, d) || (accepted && q == p && d == c))
  {
    FateMeans(r, p, c);
    if FateOf(r.buffers, p, c).Accepted? {
      var r' := Next(r, Arrive(p, c, now), pollers, grace);
      forall q, d ensures Holds(All(r'), q, d) <==> Holds(All(r), q, d) || (q == p && d == c) {
        BufferHolds(r, p, c, now, grace, q, d);
      }
    }
  }

  ghost predicate NothingSentFrom(r: Run, ts: int) {
    forall k :: 0 <= k < |r.emitted| ==> r.emitted[k].ts < ts
  }

  ghost predicate HasNoCandleAt(r: Run, p: Pair, ts: int) {
    forall d :: Holds(All(r), p, d) ==> d.ts != ts
  }

  lemma FateMeans(r: Run, p: Pair, c: Candle)
    requires Invariant(r)
    ensures FateOf(r.buffers, p, c).Accepted? <==> NothingSentFrom(r, c.ts) && HasNoCandleAt(r, p, c.ts)
  {
    if FateOf(r.buffers, p, c).Accepted? {
      forall d | Holds(All(r), p, d) ensures d.ts != c.ts {
        if d.ts == c.ts {
          HeldIsRefused(r, p, c, d);
        }
      }
      forall k | 0 <= k < |r.emitted| ensures r.emitted[k].ts < c.ts {
        assert k < |r.emitted| - 1 ==> r.emitted[k].ts < r.emitted[|r.emitted| - 1].ts;
      }
    } else if c.ts in r.buffers.pending && p in r.buffers.pending[c.ts] {
      var d := r.buffers.pending[c.ts][p];
      assert WellFormed(Step(c.ts, r.buffers.pending[c.ts]));
      InOrderHolds(r.buffers.pending, p, d);
      HoldsAppend(r.emitted, InOrder(r.buffers.pending), p, d);
    } else {
      assert r.emitted[|r.emitted| - 1].ts >= c.ts;
    }
  }

  lemma EmissionKeeps(r: Run, clock: nat -> int, pollers: nat, grace: int)
    requires Invariant(r)
    ensures Invariant(Next(r, Emission(clock), pollers, grace))
    ensures All(Next(r, Emission(clock), pollers, grace)) == All(r)
  {
    var r' := Next(r, Emission(clock), pollers, grace);
    var s := Sweep(r.buffers, pollers, clock, 0);
    SweepMoves(r.buffers, pollers, clock, 0);
    Regroup(r.emitted, s.steps, InOrder(s.buffers.pending));
    forall p ensures AcceptedOnce(r', p) {
      assert AcceptedOnce(r, p);
    }
    EmissionOrders(r, s);
  }

  lemma EmissionOrders(r: Run, s: Swept)
    requires Ordered(r) && s.steps + InOrder(s.buffers.pending) == InOrder(r.buffers.pending)
    requires s.buffers.pending.Keys <= r.buffers.pending.Keys
    requires forall ts :: ts in s.buffers.pending ==> s.buffers.pending[ts] == r.buffers.pending[ts]
    requires s.buffers.lastEmitted == (if s.steps == [] then r.buffers.lastEmitted else Some(s.steps[|s.steps| - 1].ts))
    ensures Ordered(Run(s.buffers, r.arrivals, r.emitted + s.steps))
  {
    AllIsCanonical(r);
    var emitted := r.emitted + s.steps;
    assert All(r) == r.emitted + (s.steps + InOrder(s.buffers.pending)) == emitted + InOrder(s.buffers.pending);
    assert forall k :: 0 <= k < |emitted| ==> emitted[k] == All(r)[k];
    PendingStaysLater(r, s);
  }

  lemma PendingStaysLater(r: Run, s: Swept)
    requires Canonical(r.emitted + (s.steps + InOrder(s.buffers.pending))) && PendingWellFormed(r.buffers.pending)
    requires s.buffers.pending.Keys <= r.buffers.pending.Keys
    requires forall ts :: ts in s.buffers.pending ==> s.buffers.pending[ts] == r.buffers.pending[ts]
    ensures PendingWellFormed(s.buffers.pending)
    ensures forall ts, k ::
        ts in s.buffers.pending && 0 <= k < |r.emitted + s.steps| ==> (r.emitted + s.steps)[k].ts < ts
  {
    forall ts | ts in s.buffers.pending ensures WellFormed(Step(ts, s.buffers.pending[ts])) {
      assert WellFormed(Step(ts, r.buffers.pending[ts]));
    }
    var all := r.emitted + (s.steps + InOrder(s.buffers.pending));
    var n := |r.emitted + s.steps|;
    forall ts, k | ts in s.buffers.pending && 0 <= k < n ensures (r.emitted + s.steps)[k].ts < ts {
      var j := PendingHasPlace(s.buffers.pending, ts);
      assert all[k] == (r.emitted + s.steps)[k] && all[n + j] == InOrder(s.buffers.pending)[j];
    }
  }

  lemma {:induction false} PendingHasPlace(pending: map<int, map<Pair, Candle>>, ts: int) returns (j: nat)
    requires ts in pending
    ensures j < |InOrder(pending)| && InOrder(pending)[j].ts == ts
    decreases |pending|
  {
    var first := MinKey(pending.Keys);
    if ts == first {
      j := 0;
    } else {
      var i := PendingHasPlace(pending - {first}, ts);
      j := i + 1;
    }
  }

  /** In every run: step times strictly increase, and every accepted arrival is in exactly one
      place, sent out or still buffered. */
  lemma {:induction false} EveryRunKeepsInvariant(events: seq<Event>, pollers: nat, grace: int)
    ensures Invariant(After(events, pollers, grace))
  {
    if events == [] {
      forall p ensures AcceptedOnce(FRESH, p) {
        assert All(FRESH) == [];
      }
    } else {
      EveryRunKeepsInvariant(events[..|events| - 1], pollers, grace);
      var before := After(events[..|events| - 1], pollers, grace);
      match events[|events| - 1]
      case Arrive(p, c, now) => ArriveKeeps(before, p, c, now, pollers, grace);
      case Emission(clock) => EmissionKeeps(before, clock, pollers, grace);
    }
  }

  // ----- parity with joined_steps -----

  lemma {:induction false} ProjectionAscends(steps: seq<Step>, p: Pair)
    requires Canonical(steps)
    ensures PortfolioSteps.Ascending(Projection(steps, p))
    ensures forall i :: steps != [] && 0 <= i < |Projection(steps, p)| ==> steps[0].ts <= Projection(steps, p)[i].ts
  {
    if steps != [] {
      ProjectionAscends(steps[1..], p);
      forall i | 0 <= i < |Projection(steps[1..], p)| ensures steps[0].ts < Projection(steps[1..], p)[i].ts {
        assert steps[1..] != [] && steps[1..][0].ts <= Projection(steps[1..], p)[i].ts;
      }
    }
  }

  lemma Inhabits(a: seq<Candle>)
    ensures a == [] || exists c :: c in a
  {
    if a != [] {
      assert a[0] in a;
    }
  }

  lemma {:induction false} SameElementsSameOrder(a: seq<Candle>, b: seq<Candle>)
    requires PortfolioSteps.Ascending(a) && PortfolioSteps.Ascending(b)
    requires forall c :: c in a <==> c in b
    ensures a == b
  {
    if a == [] {
      Inhabits(b);
    } else {
      assert a[0] in a && a[0] in b;
      assert b[0] in b && b[0] in a;
      assert a[0] == b[0];
      forall c ensures c in a[1..] <==> c in b[1..] {
        assert c in a[1..] <==> c in a && c != a[0];
        assert c in b[1..] <==> c in b && c != b[0];
      }
      SameElementsSameOrder(a[1..], b[1..]);
      assert a == [a[0]] + a[1..] && b == [b[0]] + b[1..];
    }
  }

  predicate NothingDropped(arrivals: seq<Arrival>) {
    forall i :: 0 <= i < |arrivals| ==> arrivals[i].fate.Accepted?
  }

  lemma {:induction false} NothingDroppedAccepts(arrivals: seq<Arrival>, p: Pair)
    requires NothingDropped(arrivals)
    ensures AcceptedOf(arrivals, p) == ArrivalsOf(arrivals, p)
  {
    if arrivals != [] {
      NothingDroppedAccepts(arrivals[..|arrivals| - 1], p);
    }
  }

  lemma {:induction false} AcceptedArrived(arrivals: seq<Arrival>, p: Pair)
    ensures |AcceptedOf(arrivals, p)| <= |ArrivalsOf(arrivals, p)|
    ensures (exists i :: 0 <= i < |arrivals| && arrivals[i].pair == p && !arrivals[i].fate.Accepted?)
            ==> |AcceptedOf(arrivals, p)| < |ArrivalsOf(arrivals, p)|
  {
    if arrivals != [] {
      var last := |arrivals| - 1;
      AcceptedArrived(arrivals[..last], p);
      if i :| 0 <= i < |arrivals| && arrivals[i].pair == p && !arrivals[i].fate.Accepted? {
        assert i < last ==> arrivals[..last][i] == arrivals[i];
      }
    }
  }

  lemma DistinctSameSize(a: seq<Candle>, b: seq<Candle>)
    requires DistinctTimes(a) && PortfolioSteps.Ascending(b)
    requires forall c :: c in a <==> c in b
    ensures |a| == |b|
  {
    Cardinality(a);
    Cardinality(b);
    assert (set c | c in a) == (set c | c in b);
  }

  lemma {:induction false} Cardinality(a: seq<Candle>)
    requires DistinctTimes(a)
    ensures |set c | c in a| == |a|
  {
    if a != [] {
      var init, last := a[..|a| - 1], a[|a| - 1];
      Cardinality(init);
      assert a == init + [last];
      assert (set c | c in a) == (set c | c in init) + {last};
    }
  }

  /** What arrived for each pair, as the lists a backtest would join. */
  ghost predicate ListsAre(lists: map<Pair, seq<Candle>>, arrivals: seq<Arrival>) {
    forall p :: ListOf(lists, p) == ArrivalsOf(arrivals, p)
  }

  /** When each pair's arrivals ascend, what was sent out followed by what is pending equals
      joined_steps of the arrivals exactly when nothing was dropped. */
  lemma {:induction false} JoinerParity(events: seq<Event>, pollers: nat, grace: int, lists: map<Pair, seq<Candle>>,
                                        joined: seq<Step>)
    requires ListsAre(lists, After(events, pollers, grace).arrivals) && IsJoin(joined, lists)
    requires forall p :: PortfolioSteps.Ascending(ArrivalsOf(After(events, pollers, grace).arrivals, p))
    ensures NothingDropped(After(events, pollers, grace).arrivals)
       <==> After(events, pollers, grace).emitted + InOrder(After(events, pollers, grace).buffers.pending) == joined
  {
    var r := After(events, pollers, grace);
    EveryRunKeepsInvariant(events, pollers, grace);
    if NothingDropped(r.arrivals) {
      AcceptedIsJoined(r, lists, joined);
    }
    if All(r) == joined && !NothingDropped(r.arrivals) {
      DroppedIsMissing(r, lists);
    }
  }

  lemma AcceptedIsJoined(r: Run, lists: map<Pair, seq<Candle>>, joined: seq<Step>)
    requires Invariant(r) && NothingDropped(r.arrivals) && ListsAre(lists, r.arrivals) && IsJoin(joined, lists)
    requires forall p :: PortfolioSteps.Ascending(ArrivalsOf(r.arrivals, p))
    ensures All(r) == joined
  {
    AllIsCanonical(r);
    forall p ensures Projection(All(r), p) == Projection(joined, p) {
      PairSeesItsArrivals(r, p);
      assert Projection(joined, p) == ListOf(lists, p) == ArrivalsOf(r.arrivals, p);
    }
    JoinIsUnique(All(r), joined);
  }

  /** A dropped candle is missing from what its pair sees. */
  lemma DroppedIsMissing(r: Run, lists: map<Pair, seq<Candle>>)
    requires Invariant(r) && !NothingDropped(r.arrivals) && ListsAre(lists, r.arrivals)
    requires forall p :: PortfolioSteps.Ascending(ArrivalsOf(r.arrivals, p))
    ensures !IsJoin(All(r), lists)
  {
    var i :| 0 <= i < |r.arrivals| && !r.arrivals[i].fate.Accepted?;
    var p := r.arrivals[i].pair;
    AcceptedArrived(r.arrivals, p);
    assert AcceptedOnce(r, p);
    if Projection(All(r), p) == ListOf(lists, p) {
      forall c ensures c in AcceptedOf(r.arrivals, p) <==> c in ArrivalsOf(r.arrivals, p) {
        ProjectionHolds(All(r), p, c);
        assert ListOf(lists, p) == ArrivalsOf(r.arrivals, p);
      }
      DistinctSameSize(AcceptedOf(r.arrivals, p), ArrivalsOf(r.arrivals, p));
    }
  }

  lemma {:induction false} PairSeesItsArrivals(r: Run, p: Pair)
    requires Invariant(r) && NothingDropped(r.arrivals) && PortfolioSteps.Ascending(ArrivalsOf(r.arrivals, p))
    ensures Projection(All(r), p) == ArrivalsOf(r.arrivals, p)
  {
    AllIsCanonical(r);
    NothingDroppedAccepts(r.arrivals, p);
    ProjectionAscends(All(r), p);
    assert AcceptedOnce(r, p);
    forall c ensures c in Projection(All(r), p) <==> c in ArrivalsOf(r.arrivals, p) {
      ProjectionHolds(All(r), p, c);
    }
    SameElementsSameOrder(Projection(All(r), p), ArrivalsOf(r.arrivals, p));
  }

  /** A buffered step's deadline is its first accepted candle's arrival plus the grace. */
  ghost predicate GraceFromFirst(r: Run, ts: int, grace: int)
    requires ts in r.buffers.deadlines
  {
    exists i :: 0 <= i < |r.arrivals| && r.arrivals[i].candle.ts == ts && r.arrivals[i].fate.Accepted?
      && r.buffers.deadlines[ts] == r.arrivals[i].now + grace
      && forall j :: 0 <= j < i && r.arrivals[j].candle.ts == ts ==> !r.arrivals[j].fate.Accepted?
  }

  /** Every accepted time was sent out or is still buffered. */
  lemma TimeIsHeld(r: Run, j: nat)
    requires Invariant(r) && j < |r.arrivals| && r.arrivals[j].fate.Accepted?
    ensures r.arrivals[j].candle.ts in r.buffers.pending
         || (r.buffers.lastEmitted.Some? && r.arrivals[j].candle.ts <= r.buffers.lastEmitted.value)
  {
    var p, c := r.arrivals[j].pair, r.arrivals[j].candle;
    AcceptedIsListed(r.arrivals, j);
    assert AcceptedOnce(r, p);
    HoldsAppend(r.emitted, InOrder(r.buffers.pending), p, c);
    InOrderHolds(r.buffers.pending, p, c);
    if Holds(r.emitted, p, c) {
      HeldIsRefused(r, p, c, c);
    }
  }

  lemma {:induction false} AcceptedIsListed(arrivals: seq<Arrival>, j: nat)
    requires j < |arrivals| && arrivals[j].fate.Accepted?
    ensures arrivals[j].candle in AcceptedOf(arrivals, arrivals[j].pair)
  {
    var last := |arrivals| - 1;
    if j < last {
      AcceptedIsListed(arrivals[..last], j);
    }
  }

  ghost predicate Graced(r: Run, grace: int) {
    forall ts :: ts in r.buffers.deadlines ==> GraceFromFirst(r, ts, grace)
  }

  /** No pair's first candle of a step waits longer than the grace for the others. */
  lemma {:induction false} DeadlineIsFirstArrivalPlusGrace(events: seq<Event>, pollers: nat, grace: int)
    ensures Graced(After(events, pollers, grace), grace)
  {
    if events != [] {
      var init := events[..|events| - 1];
      DeadlineIsFirstArrivalPlusGrace(init, pollers, grace);
      EveryRunKeepsInvariant(init, pollers, grace);
      match events[|events| - 1]
      case Arrive(p, c, now) => GraceAfterArrival(After(init, pollers, grace), p, c, now, pollers, grace);
      case Emission(clock) => GraceAfterEmission(After(init, pollers, grace), clock, pollers, grace);
    }
  }

  lemma GraceAfterArrival(before: Run, p: Pair, c: Candle, now: int, pollers: nat, grace: int)
    requires Invariant(before) && Graced(before, grace)
    ensures Graced(Next(before, Arrive(p, c, now), pollers, grace), grace)
  {
    var r := Next(before, Arrive(p, c, now), pollers, grace);
    forall ts | ts in r.buffers.deadlines ensures GraceFromFirst(r, ts, grace) {
      DeadlineAfterArrival(before, p, c, now, pollers, grace, ts);
    }
  }

  lemma GraceAfterEmission(before: Run, clock: nat -> int, pollers: nat, grace: int)
    requires Invariant(before) && Graced(before, grace)
    ensures Graced(Next(before, Emission(clock), pollers, grace), grace)
  {
    var r := Next(before, Emission(clock), pollers, grace);
    SweepKeepsDeadlines(before.buffers, pollers, clock);
    forall ts | ts in r.buffers.deadlines ensures GraceFromFirst(r, ts, grace) {
      GraceStays(before, r, ts, grace);
    }
  }

  lemma {:induction false} SweepKeepsDeadlines(b: Buffers, pollers: nat, clock: nat -> int)
    requires Tracked(b)
    ensures var r := Sweep(b, pollers, clock, 0).buffers;
            forall ts :: ts in r.deadlines ==> ts in b.deadlines && r.deadlines[ts] == b.deadlines[ts]
  {
    SweepMoves(b, pollers, clock, 0);
  }

  lemma GraceStays(before: Run, r: Run, ts: int, grace: int)
    requires ts in before.buffers.deadlines && GraceFromFirst(before, ts, grace)
    requires ts in r.buffers.deadlines && r.buffers.deadlines[ts] == before.buffers.deadlines[ts]
    requires r.arrivals == before.arrivals
    ensures GraceFromFirst(r, ts, grace)
  {}

  lemma DeadlineAfterArrival(before: Run, p: Pair, c: Candle, now: int, pollers: nat, grace: int, ts: int)
    requires Invariant(before) && Graced(before, grace)
    requires ts in Next(before, Arrive(p, c, now), pollers, grace).buffers.deadlines
    ensures GraceFromFirst(Next(before, Arrive(p, c, now), pollers, grace), ts, grace)
  {
    var r := Next(before, Arrive(p, c, now), pollers, grace);
    var n := |before.arrivals|;
    assert r.arrivals[..n] == before.arrivals;
    if ts in before.buffers.deadlines {
      assert GraceFromFirst(before, ts, grace);
      var i :| 0 <= i < n && before.arrivals[i].candle.ts == ts && before.arrivals[i].fate.Accepted?
        && before.buffers.deadlines[ts] == before.arrivals[i].now + grace
        && forall j :: 0 <= j < i && before.arrivals[j].candle.ts == ts ==> !before.arrivals[j].fate.Accepted?;
      assert r.arrivals[i] == before.arrivals[i];
    } else {
      assert r.arrivals[n] == Arrival(p, c, now, Accepted) && ts == c.ts;
      forall j | 0 <= j < n && r.arrivals[j].candle.ts == ts ensures !r.arrivals[j].fate.Accepted? {
        if before.arrivals[j].fate.Accepted? {
          TimeIsHeld(before, j);
        }
      }
    }
  }

  // ----- the joiner object -----

  class UniverseCandleJoiner {
    const pollers: nat
    const grace: int
    var pending: map<int, map<Pair, Candle>>
    var deadlines: map<int, int>
    var lastEmitted: Option<int>

    constructor (pollers: nat, grace: int)
      requires pollers >= 2
      ensures this.pollers == pollers && this.grace == grace && State() == FRESH.buffers
    {
      this.pollers, this.grace := pollers, grace;
      pending, deadlines, lastEmitted := map[], map[], None;
    }

    ghost function State(): Buffers
      reads this
    {
      Buffers(pending, deadlines, lastEmitted)
    }

    /** Queue one arrived candle, or drop it as late or duplicate. */
    method Buffer(p: Pair, c: Candle, now: int)
      modifies this
      ensures State() == Buffered(old(State()), p, c, now, grace)
    {
      if lastEmitted.Some? && c.ts <= lastEmitted.value {
        return;
      }
      if c.ts !in pending {
        pending := pending[c.ts := map[]];
      }
      if p in pending[c.ts] {
        return;
      }
      pending := pending[c.ts := pending[c.ts][p := c]];
      if c.ts !in deadlines {
        deadlines := deadlines[c.ts := now + grace];
      }
    }

    /** Send out what is complete or due, in timestamp order. */
    method Emit(clock: nat -> int) returns (steps: seq<Step>)
      requires Tracked(State())
      modifies this
      ensures Swept(steps, State()) == Sweep(old(State()), pollers, clock, 0)
    {
      steps := [];
      while pending != map[]
        invariant Tracked(State())
        invariant Continued(steps, State(), pollers, clock) == Sweep(old(State()), pollers, clock, 0)
        decreases |pending|
      {
        var ts := EarliestKey(pending.Keys);
        if |pending[ts]| != pollers && clock(|steps|) < deadlines[ts] {
          NothingSent(State(), pollers, clock, |steps|);
          return;
        }
        SendOne(steps, State(), pollers, clock);
        var step := Pop(ts);
        steps := steps + [step];
      }
    }

    /** Take one step out of the buffers. */
    method Pop(ts: int) returns (step: Step)
      requires ts in pending
      modifies this
      ensures step == Step(ts, old(pending)[ts]) && State() == Emitted(old(State()), ts)
    {
      step := Step(ts, pending[ts]);
      pending, deadlines, lastEmitted := pending - {ts}, deadlines - {ts}, Some(ts);
    }
  }

  // ----- warm-up, then live -----

  /** The candles newer than everything kept before them. */
  function Newer(candles: seq<Candle>, last: Option<int>): seq<Candle> {
    if candles == [] then []
    else if last.Some? && candles[0].ts <= last.value then Newer(candles[1..], last)
    else [candles[0]] + Newer(candles[1..], Some(candles[0].ts))
  }

  function LastTime(candles: seq<Candle>): Option<int> {
    if candles == [] then None else Some(candles[|candles| - 1].ts)
  }

  lemma {:induction false} NewerAscends(candles: seq<Candle>, last: Option<int>)
    ensures PortfolioSteps.Ascending(Newer(candles, last))
    ensures forall i :: last.Some? && 0 <= i < |Newer(candles, last)| ==> last.value < Newer(candles, last)[i].ts
  {
    if candles != [] {
      if last.Some? && candles[0].ts <= last.value {
        NewerAscends(candles[1..], last);
      } else {
        NewerAscends(candles[1..], Some(candles[0].ts));
      }
    }
  }

  function LastOf(lastTs: map<Pair, int>, p: Pair): Option<int> {
    if p in lastTs then Some(lastTs[p]) else None
  }

  function Fresh(step: map<Pair, Candle>, lastTs: map<Pair, int>): map<Pair, Candle> {
    map p | p in step && (p !in lastTs || lastTs[p] < step[p].ts) :: step[p]
  }

  function Updated(lastTs: map<Pair, int>, news: map<Pair, Candle>): map<Pair, int> {
    lastTs + (map p | p in news :: news[p].ts)
  }

  lemma {:induction false} FreshIsNewer(live: seq<Step>, lastTs: map<Pair, int>, p: Pair)
    requires live != []
    ensures var news := Fresh(live[0].candles, lastTs);
            Newer(Projection(live, p), LastOf(lastTs, p))
            == (if p in news then [news[p]] else []) + Newer(Projection(live[1..], p), LastOf(Updated(lastTs, news), p))
  {
    var news, rest := Fresh(live[0].candles, lastTs), Projection(live[1..], p);
    ProjectionRest(live, p);
    LastOfUpdated(lastTs, news, p);
    if p in live[0].candles {
      NewerHead(live[0].candles[p], rest, LastOf(lastTs, p));
    } else {
      assert Projection(live, p) == rest;
    }
  }

  lemma LastOfUpdated(lastTs: map<Pair, int>, news: map<Pair, Candle>, p: Pair)
    ensures LastOf(Updated(lastTs, news), p) == if p in news then Some(news[p].ts) else LastOf(lastTs, p)
  {}

  lemma {:induction false} NewerHead(c: Candle, rest: seq<Candle>, last: Option<int>)
    ensures Newer([c] + rest, last)
         == if last.Some? && c.ts <= last.value then Newer(rest, last) else [c] + Newer(rest, Some(c.ts))
  {
    assert ([c] + rest)[1..] == rest;
  }

  /** What is left to pass on for `p`. */
  function Due(live: seq<Step>, lastTs: map<Pair, int>, p: Pair): seq<Candle> {
    Newer(Projection(live, p), LastOf(lastTs, p))
  }

  lemma LiveStep(out: seq<Step>, live: seq<Step>, lastTs: map<Pair, int>, p: Pair)
    requires live != []
    ensures var news := Fresh(live[0].candles, lastTs);
            Projection(out, p) + Due(live, lastTs, p)
            == Projection(if news == map[] then out else out + [Step(live[0].ts, news)], p)
            + Due(live[1..], Updated(lastTs, news), p)
  {
    var news := Fresh(live[0].candles, lastTs);
    FreshIsNewer(live, lastTs, p);
    ProjectionAppend(out, [Step(live[0].ts, news)], p);
    ProjectionOne(Step(live[0].ts, news), p);
    Regroup(Projection(out, p), if p in news then [news[p]] else [], Due(live[1..], Updated(lastTs, news), p));
  }

  /** Warm-up steps, then live ones: every pair sees its warm-up list followed by exactly its
      newer live candles, in strictly ascending order across the seam. */
  method ChainPersistUniverse(warmup: map<Pair, seq<Candle>>, live: seq<Step>) returns (out: seq<Step>)
    ensures forall p :: Projection(out, p)
                     == ListOf(warmup, p) + Newer(Projection(live, p), LastTime(ListOf(warmup, p)))
    ensures forall p :: PortfolioSteps.Ascending(ListOf(warmup, p)) ==> PortfolioSteps.Ascending(Projection(out, p))
    ensures forall k :: 0 <= k < |out| ==> out[k].candles != map[]
  {
    var lastTs := map p | p in warmup && warmup[p] != [] :: warmup[p][|warmup[p]| - 1].ts;
    out := JoinedSteps(warmup);
    ghost var lastWarm := lastTs;
    for i := 0 to |live|
      invariant Passing(out, live[i..], lastTs, warmup, live, lastWarm)
      invariant forall k :: 0 <= k < |out| ==> out[k].candles != map[]
    {
      PassOne(out, live, i, lastTs, warmup, lastWarm);
      var news := Fresh(live[i].candles, lastTs);
      if news == map[] {
        assert Updated(lastTs, news) == lastTs;
        continue;
      }
      lastTs := Updated(lastTs, news);
      out := out + [Step(live[i].ts, news)];
    }
    PassedAll(out, warmup, live, lastTs, lastWarm);
  }

  /** What was passed on and what is left make up what every pair should see. */
  ghost predicate Passing(out: seq<Step>, rest: seq<Step>, lastTs: map<Pair, int>, warmup: map<Pair, seq<Candle>>,
                          live: seq<Step>, lastWarm: map<Pair, int>)
  {
    forall p :: Projection(out, p) + Due(rest, lastTs, p) == ListOf(warmup, p) + Due(live, lastWarm, p)
  }

  lemma PassOne(out: seq<Step>, live: seq<Step>, i: nat, lastTs: map<Pair, int>, warmup: map<Pair, seq<Candle>>,
                lastWarm: map<Pair, int>)
    requires i < |live| && Passing(out, live[i..], lastTs, warmup, live, lastWarm)
    ensures var news := Fresh(live[i].candles, lastTs);
            Passing(if news == map[] then out else out + [Step(live[i].ts, news)], live[i + 1..],
                    Updated(lastTs, news), warmup, live, lastWarm)
  {
    var news := Fresh(live[i].candles, lastTs);
    assert live[i..][0] == live[i] && live[i..][1..] == live[i + 1..];
    forall p ensures Projection(if news == map[] then out else out + [Step(live[i].ts, news)], p)
                     + Due(live[i + 1..], Updated(lastTs, news), p)
                  == ListOf(warmup, p) + Due(live, lastWarm, p)
    {
      LiveStep(out, live[i..], lastTs, p);
      assert Projection(out, p) + Due(live[i..], lastTs, p) == ListOf(warmup, p) + Due(live, lastWarm, p);
    }
  }

  lemma {:induction false} PassedAll(out: seq<Step>, warmup: map<Pair, seq<Candle>>, live: seq<Step>,
                                     lastTs: map<Pair, int>, lastWarm: map<Pair, int>)
    requires Passing(out, live[|live|..], lastTs, warmup, live, lastWarm)
    requires lastWarm == map p | p in warmup && warmup[p] != [] :: warmup[p][|warmup[p]| - 1].ts
    ensures forall p :: Projection(out, p)
                     == ListOf(warmup, p) + Newer(Projection(live, p), LastTime(ListOf(warmup, p)))
    ensures forall p :: PortfolioSteps.Ascending(ListOf(warmup, p)) ==> PortfolioSteps.Ascending(Projection(out, p))
  {
    forall p ensures Projection(out, p) == ListOf(warmup, p) + Newer(Projection(live, p), LastTime(ListOf(warmup, p)))
      ensures PortfolioSteps.Ascending(ListOf(warmup, p)) ==> PortfolioSteps.Ascending(Projection(out, p))
    {
      assert Projection(out, p) + Due(live[|live|..], lastTs, p) == ListOf(warmup, p) + Due(live, lastWarm, p);
      assert LastOf(lastWarm, p) == LastTime(ListOf(warmup, p));
      NewerAscends(Projection(live, p), LastTime(ListOf(warmup, p)));
    }
  }
}
