/** The timestamp join of per-pair candle lists (kaupo/core/portfolio_engine.py). */
module PortfolioSteps {
  import opened Domain

  /** One universe step: the pairs with a candle at `ts`. */
  datatype Step = Step(ts: int, candles: map<Pair, Candle>)

  predicate Ascending(candles: seq<Candle>) {
    forall i, j :: 0 <= i < j < |candles| ==> candles[i].ts < candles[j].ts
  }

  /** A step holds at least one candle, each stamped with the step's own time. */
  predicate WellFormed(step: Step) {
    step.candles != map[] && forall p :: p in step.candles ==> step.candles[p].ts == step.ts
  }

  /** Step times strictly increase. */
  predicate Canonical(steps: seq<Step>) {
    && (forall k :: 0 <= k < |steps| ==> WellFormed(steps[k]))
    && (forall i, j :: 0 <= i < j < |steps| ==> steps[i].ts < steps[j].ts)
  }

  /** The candles one pair sees. */
  function Projection(steps: seq<Step>, p: Pair): seq<Candle> {
    if steps == [] then []
    else (if p in steps[0].candles then [steps[0].candles[p]] else []) + Projection(steps[1..], p)
  }

  /** The list of `p`, empty for a pair without one. */
  function ListOf(lists: map<Pair, seq<Candle>>, p: Pair): seq<Candle> {
    if p in lists then lists[p] else []
  }

  /** `steps` joins `lists`: in time order, and every pair sees exactly its own list. */
  ghost predicate IsJoin(steps: seq<Step>, lists: map<Pair, seq<Candle>>) {
    Canonical(steps) && forall p :: Projection(steps, p) == ListOf(lists, p)
  }

  lemma {:induction false} ProjectionAppend(a: seq<Step>, b: seq<Step>, p: Pair)
    ensures Projection(a + b, p) == Projection(a, p) + Projection(b, p)
  {
    if a == [] {
      assert a + b == b;
    } else {
      assert (a + b)[1..] == a[1..] + b;
      ProjectionAppend(a[1..], b, p);
    }
  }

  lemma {:induction false} ProjectionOne(step: Step, p: Pair)
    ensures Projection([step], p) == if p in step.candles then [step.candles[p]] else []
  {
    assert [step][1..] == [];
  }

  /** Some step holds candle `c` of `p`. */
  ghost predicate Holds(steps: seq<Step>, p: Pair, c: Candle) {
    exists k :: 0 <= k < |steps| && p in steps[k].candles && steps[k].candles[p] == c
  }

  lemma {:induction false} ProjectionHolds(steps: seq<Step>, p: Pair, c: Candle)
    ensures c in Projection(steps, p) <==> Holds(steps, p, c)
  {
    if steps != [] {
      ProjectionHolds(steps[1..], p, c);
      if Holds(steps[1..], p, c) {
        var k :| 0 <= k < |steps[1..]| && p in steps[1..][k].candles && steps[1..][k].candles[p] == c;
        assert steps[k + 1] == steps[1..][k];
      }
      if Holds(steps, p, c) {
        var k :| 0 <= k < |steps| && p in steps[k].candles && steps[k].candles[p] == c;
        assert k > 0 ==> steps[1..][k - 1] == steps[k];
      }
    }
  }

  lemma CanonicalTail(steps: seq<Step>)
    requires Canonical(steps) && steps != []
    ensures Canonical(steps[1..])
    ensures forall k :: 0 <= k < |steps[1..]| ==> steps[0].ts < steps[1..][k].ts
  {}

  /** In a canonical sequence the first candle of `p` sits in the first step exactly when it
      carries that step's time. */
  lemma {:induction false} FirstCandle(steps: seq<Step>, p: Pair)
    requires Canonical(steps) && Projection(steps, p) != []
    ensures steps != [] && steps[0].ts <= Projection(steps, p)[0].ts
    ensures p in steps[0].candles <==> Projection(steps, p)[0].ts == steps[0].ts
  {
    var c := Projection(steps, p)[0];
    ProjectionHolds(steps, p, c);
    var k :| 0 <= k < |steps| && p in steps[k].candles && steps[k].candles[p] == c;
  }

  lemma {:induction false} ProjectionRest(steps: seq<Step>, p: Pair)
    requires steps != []
    ensures p in steps[0].candles ==> Projection(steps, p) == [steps[0].candles[p]] + Projection(steps[1..], p)
    ensures Projection(steps[1..], p)
         == if p in steps[0].candles then Projection(steps, p)[1..] else Projection(steps, p)
  {}

  lemma SomePair(candles: map<Pair, Candle>)
    ensures candles == map[] || exists p :: p in candles
  {
    if forall p :: p !in candles {
      assert candles == map[];
    }
  }

  lemma {:induction false} FirstStepNoLater(a: seq<Step>, b: seq<Step>)
    requires Canonical(a) && Canonical(b) && a != []
    requires forall p :: Projection(a, p) == Projection(b, p)
    ensures b != [] && b[0].ts <= a[0].ts
  {
    SomePair(a[0].candles);
    var p :| p in a[0].candles;
    FirstCandle(b, p);
  }

  lemma {:induction false} FirstStepsAgree(a: seq<Step>, b: seq<Step>)
    requires Canonical(a) && Canonical(b) && a != [] && b != []
    requires forall p :: Projection(a, p) == Projection(b, p)
    ensures a[0] == b[0]
  {
    FirstStepNoLater(a, b);
    FirstStepNoLater(b, a);
    forall p ensures p in a[0].candles <==> p in b[0].candles
      ensures p in a[0].candles ==> a[0].candles[p] == b[0].candles[p]
    {
      if Projection(a, p) != [] {
        FirstCandle(a, p);
        FirstCandle(b, p);
      }
    }
    assert a[0].candles == b[0].candles;
  }

  /** A join is determined by what each pair sees: there is only one. */
  lemma {:induction false} JoinIsUnique(a: seq<Step>, b: seq<Step>)
    requires Canonical(a) && Canonical(b)
    requires forall p :: Projection(a, p) == Projection(b, p)
    ensures a == b
    decreases |a|
  {
    if a == [] {
      if b != [] {
        FirstStepNoLater(b, a);
      }
    } else {
      FirstStepNoLater(a, b);
      FirstStepsAgree(a, b);
      forall p ensures Projection(a[1..], p) == Projection(b[1..], p) {
        assert Projection(a, p) == Projection(b, p);
        ProjectionRest(a, p);
        ProjectionRest(b, p);
      }
      CanonicalTail(a);
      CanonicalTail(b);
      JoinIsUnique(a[1..], b[1..]);
      assert a == [a[0]] + a[1..] && b == [b[0]] + b[1..];
    }
  }

  // ----- joined_steps -----

  predicate HasHead(queue: seq<Candle>, ts: int) {
    queue != [] && queue[0].ts == ts
  }

  /** `ts` is the earliest head. */
  predicate Earliest(queues: map<Pair, seq<Candle>>, ts: int) {
    && (exists p :: p in queues && HasHead(queues[p], ts))
    && (forall p :: p in queues && queues[p] != [] ==> ts <= queues[p][0].ts)
  }

  function Heads(queues: map<Pair, seq<Candle>>, ts: int): map<Pair, Candle> {
    map p | p in queues && HasHead(queues[p], ts) :: queues[p][0]
  }

  function Popped(queues: map<Pair, seq<Candle>>, ts: int): map<Pair, seq<Candle>> {
    map p | p in queues :: if HasHead(queues[p], ts) then queues[p][1..] else queues[p]
  }

  /** What is left to emit: pairs with positions in their queues. */
  function Remaining(queues: map<Pair, seq<Candle>>): set<(Pair, int)> {
    set p, i | p in queues && 0 <= i < |queues[p]| :: (p, i)
  }

  method EarliestHead(queues: map<Pair, seq<Candle>>) returns (ts: int)
    requires exists p :: p in queues && queues[p] != []
    ensures Earliest(queues, ts)
  {
    var first :| first in queues && queues[first] != [];
    ts := queues[first][0].ts;
    var todo := queues.Keys;
    while todo != {}
      invariant todo <= queues.Keys
      invariant exists p :: p in queues && HasHead(queues[p], ts)
      invariant forall p :: p in queues.Keys - todo && queues[p] != [] ==> ts <= queues[p][0].ts
      decreases todo
    {
      var p :| p in todo;
      todo := todo - {p};
      if queues[p] != [] && queues[p][0].ts < ts {
        ts := queues[p][0].ts;
      }
    }
  }

  /** Pop every head stamped `ts`. */
  method TakeStep(queues: map<Pair, seq<Candle>>, ts: int)
    returns (step: map<Pair, Candle>, rest: map<Pair, seq<Candle>>)
    ensures step == Heads(queues, ts) && rest == Popped(queues, ts)
  {
    step, rest := map[], queues;
    var todo := queues.Keys;
    while todo != {}
      invariant todo <= queues.Keys && rest.Keys == queues.Keys && step.Keys <= queues.Keys - todo
      invariant forall p :: p in todo ==> rest[p] == queues[p]
      invariant forall p :: p in queues.Keys - todo ==> rest[p] == Popped(queues, ts)[p]
      invariant forall p :: p in queues.Keys - todo ==> (p in step <==> HasHead(queues[p], ts))
      invariant forall p :: p in step ==> step[p] == queues[p][0]
      decreases todo
    {
      var p :| p in todo;
      todo := todo - {p};
      if HasHead(rest[p], ts) {
        step := step[p := rest[p][0]];
        rest := rest[p := rest[p][1..]];
      }
    }
  }

  lemma PopShrinks(queues: map<Pair, seq<Candle>>, ts: int)
    requires Earliest(queues, ts)
    ensures Remaining(Popped(queues, ts)) < Remaining(queues)
  {
    var p :| p in queues && HasHead(queues[p], ts);
    var rest := Popped(queues, ts);
    assert (p, |queues[p]| - 1) in Remaining(queues);
    assert (p, |queues[p]| - 1) !in Remaining(rest);
    forall x | x in Remaining(rest) ensures x in Remaining(queues) {
      assert x == (x.0, x.1) && x.0 in queues && 0 <= x.1 < |rest[x.0]| <= |queues[x.0]|;
    }
  }

  /** Emitted and queued candles together are the input, pair by pair. */
  ghost predicate Split(steps: seq<Step>, queues: map<Pair, seq<Candle>>, lists: map<Pair, seq<Candle>>) {
    && queues.Keys == lists.Keys
    && (forall p :: Projection(steps, p) + ListOf(queues, p) == ListOf(lists, p))
  }

  /** Nothing queued is as old as an emitted step. */
  predicate HeadsAfter(steps: seq<Step>, queues: map<Pair, seq<Candle>>) {
    forall k, p :: 0 <= k < |steps| && p in queues && queues[p] != [] ==> steps[k].ts < queues[p][0].ts
  }

  lemma QueueSplits(queues: map<Pair, seq<Candle>>, ts: int, p: Pair)
    ensures ListOf(queues, p)
         == (if p in Heads(queues, ts) then [Heads(queues, ts)[p]] else []) + ListOf(Popped(queues, ts), p)
  {
    if p in queues && HasHead(queues[p], ts) {
      assert queues[p] == [queues[p][0]] + queues[p][1..];
    }
  }

  lemma SplitStep(steps: seq<Step>, queues: map<Pair, seq<Candle>>, lists: map<Pair, seq<Candle>>, ts: int)
    requires Split(steps, queues, lists)
    ensures Split(steps + [Step(ts, Heads(queues, ts))], Popped(queues, ts), lists)
  {
    forall p ensures Projection(steps + [Step(ts, Heads(queues, ts))], p) + ListOf(Popped(queues, ts), p)
                  == ListOf(lists, p)
    {
      SplitPair(steps, queues, ts, p);
      assert Projection(steps, p) + ListOf(queues, p) == ListOf(lists, p);
    }
  }

  lemma {:induction false} SplitPair(steps: seq<Step>, queues: map<Pair, seq<Candle>>, ts: int, p: Pair)
    ensures Projection(steps + [Step(ts, Heads(queues, ts))], p) + ListOf(Popped(queues, ts), p)
         == Projection(steps, p) + ListOf(queues, p)
  {
    var step := Step(ts, Heads(queues, ts));
    ProjectionAppend(steps, [step], p);
    ProjectionOne(step, p);
    QueueSplits(queues, ts, p);
    Regroup(Projection(steps, p), Projection([step], p), ListOf(Popped(queues, ts), p));
  }

  lemma Regroup<T>(a: seq<T>, b: seq<T>, c: seq<T>)
    ensures (a + b) + c == a + (b + c)
  {}

  lemma StepIsWellFormed(queues: map<Pair, seq<Candle>>, ts: int)
    requires Earliest(queues, ts)
    ensures WellFormed(Step(ts, Heads(queues, ts)))
  {
    var p :| p in queues && HasHead(queues[p], ts);
    assert p in Heads(queues, ts);
  }

  lemma HeadsStayAfter(steps: seq<Step>, queues: map<Pair, seq<Candle>>, ts: int)
    requires Canonical(steps) && HeadsAfter(steps, queues) && Earliest(queues, ts)
    requires forall p :: p in queues ==> Ascending(queues[p])
    ensures Canonical(steps + [Step(ts, Heads(queues, ts))])
    ensures HeadsAfter(steps + [Step(ts, Heads(queues, ts))], Popped(queues, ts))
    ensures forall p :: p in Popped(queues, ts) ==> Ascending(Popped(queues, ts)[p])
  {
    StepIsWellFormed(queues, ts);
    var p :| p in queues && HasHead(queues[p], ts);
    assert forall k :: 0 <= k < |steps| ==> steps[k].ts < queues[p][0].ts == ts;
  }

  /** The join terminates, fabricates and loses nothing whatever the lists, and is the unique
      time-ordered join when every list ascends. */
  method JoinedSteps(lists: map<Pair, seq<Candle>>) returns (steps: seq<Step>)
    ensures forall p :: Projection(steps, p) == ListOf(lists, p)
    ensures forall k :: 0 <= k < |steps| ==> WellFormed(steps[k])
    ensures (forall p :: p in lists ==> Ascending(lists[p])) ==> IsJoin(steps, lists)
  {
    steps := [];
    var queues := lists;
    ghost var ordered := forall p :: p in lists ==> Ascending(lists[p]);
    while exists p :: p in queues && queues[p] != []
      invariant Split(steps, queues, lists)
      invariant forall k :: 0 <= k < |steps| ==> WellFormed(steps[k])
      invariant ordered ==> Canonical(steps) && HeadsAfter(steps, queues)
                            && forall p :: p in queues ==> Ascending(queues[p])
      decreases Remaining(queues)
    {
      var ts := EarliestHead(queues);
      var heads, rest := TakeStep(queues, ts);
      SplitStep(steps, queues, lists, ts);
      StepIsWellFormed(queues, ts);
      PopShrinks(queues, ts);
      if ordered {
        HeadsStayAfter(steps, queues, ts);
      }
      steps := steps + [Step(ts, heads)];
      queues := rest;
    }
    forall p ensures Projection(steps, p) == ListOf(lists, p) {
      assert Projection(steps, p) + ListOf(queues, p) == ListOf(lists, p);
    }
  }
}
