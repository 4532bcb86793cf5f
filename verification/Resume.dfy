/** Run-state carry: a successor rebuilds its ledger from the recorded fills of its
    chain (kaupo/core/resume.py). */
module Resume {
  import opened Domain
  import opened Accounting
  import opened Sums

  // ----- chained ledgers against one replay -----

  /** What a successor opens with: the cash and the positions that are not flat. */
  function Carry(b: Books): Books {
    Books(b.cash, OpenPositions(b.positions), 0.0)
  }

  /** One run after another, each carrying in from the one before. */
  function Chain(b: Books, runs: seq<seq<Fill>>): Result<Books, Rejection>
    decreases |runs|
  {
    if runs == [] then Success(Carry(b))
    else
      match ReplayFills(Carry(b), runs[0])
      case Failure(why) => Failure(why)
      case Success(after) => Chain(after, runs[1..])
  }

  function Concat(runs: seq<seq<Fill>>): seq<Fill> {
    if runs == [] then [] else runs[0] + Concat(runs[1..])
  }

  /** The same money and the same open positions; flat entries and realized PnL aside. */
  ghost predicate SameState(a: Books, b: Books) {
    a.cash == b.cash && OpenPositions(a.positions) == OpenPositions(b.positions)
  }

  lemma SamePosition(a: Books, b: Books, pair: Pair)
    requires SameState(a, b)
    ensures PositionOf(a, pair).size == PositionOf(b, pair).size
    ensures PositionOf(a, pair).size != 0.0 ==> PositionOf(a, pair) == PositionOf(b, pair)
  {
    if pair in a.positions && a.positions[pair].size != 0.0 {
      assert pair in OpenPositions(a.positions);
    }
    if pair in b.positions && b.positions[pair].size != 0.0 {
      assert pair in OpenPositions(b.positions);
    }
  }

  lemma SameMove(p: Position, q: Position, f: Fill)
    requires p.size == q.size && (p.size != 0.0 ==> p == q)
    requires f.side.Sell? ==> f.size <= p.size && f.size >= 0.0
    ensures SpotMove(p, f).0.size == SpotMove(q, f).0.size
    ensures SpotMove(p, f).0.size != 0.0 ==> SpotMove(p, f).0 == SpotMove(q, f).0
  {
    if p.size == 0.0 {
      assert p.size * p.avgEntry == 0.0 == q.size * q.avgEntry;
    }
  }

  lemma SameFill(a: Books, b: Books, f: Fill)
    requires SameState(a, b) && f.size >= 0.0
    ensures ApplySpot(a, f).Success? <==> ApplySpot(b, f).Success?
    ensures ApplySpot(a, f).Failure? ==> ApplySpot(a, f) == ApplySpot(b, f)
    ensures ApplySpot(a, f).Success? ==> SameState(ApplySpot(a, f).value.books, ApplySpot(b, f).value.books)
  {
    SamePosition(a, b, f.pair);
    if ApplySpot(a, f).Success? {
      var p, q := PositionOf(a, f.pair), PositionOf(b, f.pair);
      SameMove(p, q, f);
      var x, y := ApplySpot(a, f).value.books, ApplySpot(b, f).value.books;
      forall k ensures k in OpenPositions(x.positions) <==> k in OpenPositions(y.positions) {
        SamePosition(a, b, k);
      }
      forall k | k in OpenPositions(x.positions)
        ensures OpenPositions(x.positions)[k] == OpenPositions(y.positions)[k]
      {
        SamePosition(a, b, k);
      }
    }
  }

  predicate NotNegative(fills: seq<Fill>) {
    forall f :: f in fills ==> f.size >= 0.0
  }

  lemma {:induction false} SameReplay(a: Books, b: Books, fills: seq<Fill>)
    requires SameState(a, b) && NotNegative(fills)
    ensures ReplayFills(a, fills).Success? <==> ReplayFills(b, fills).Success?
    ensures ReplayFills(a, fills).Success? ==> SameState(ReplayFills(a, fills).value, ReplayFills(b, fills).value)
    decreases |fills|
  {
    if fills != [] {
      assert fills[0] in fills;
      SameFill(a, b, fills[0]);
      if ApplySpot(a, fills[0]).Success? {
        SameReplay(ApplySpot(a, fills[0]).value.books, ApplySpot(b, fills[0]).value.books, fills[1..]);
      }
    }
  }

  lemma {:induction false} ReplayAppend(b: Books, x: seq<Fill>, y: seq<Fill>)
    ensures ReplayFills(b, x + y)
        == (if ReplayFills(b, x).Success? then ReplayFills(ReplayFills(b, x).value, y) else ReplayFills(b, x))
    decreases |x|
  {
    if x == [] {
      assert x + y == y;
    } else {
      assert (x + y)[0] == x[0] && (x + y)[1..] == x[1..] + y;
      if ApplySpot(b, x[0]).Success? {
        ReplayAppend(ApplySpot(b, x[0]).value.books, x[1..], y);
      }
    }
  }

  /** Restart transparency: any number of ledgers chained by carry-in accept exactly what one
      ledger fed all the fills accepts, and end with the same cash, sizes, average entries
      and entry times. */
  lemma {:induction false} ChainEqualsOneReplay(b: Books, whole: Books, runs: seq<seq<Fill>>)
    requires SameState(b, whole) && NotNegative(Concat(runs))
    ensures Chain(b, runs).Success? <==> ReplayFills(whole, Concat(runs)).Success?
    ensures Chain(b, runs).Success? ==> SameState(Chain(b, runs).value, ReplayFills(whole, Concat(runs)).value)
    decreases |runs|
  {
    assert SameState(Carry(b), b) by {
      assert OpenPositions(OpenPositions(b.positions)) == OpenPositions(b.positions);
    }
    if runs != [] {
      assert forall f :: f in runs[0] || f in Concat(runs[1..]) ==> f in Concat(runs);
      SameReplay(Carry(b), whole, runs[0]);
      ReplayAppend(whole, runs[0], Concat(runs[1..]));
      if ReplayFills(Carry(b), runs[0]).Success? {
        ChainEqualsOneReplay(ReplayFills(Carry(b), runs[0]).value, ReplayFills(whole, runs[0]).value, runs[1..]);
      }
    }
  }

  // ----- the order the fills are loaded in -----

  predicate InTimeOrder(fills: seq<Fill>) {
    forall i, j :: 0 <= i < j < |fills| ==> fills[i].ts <= fills[j].ts
  }

  /** Oldest first, and buys before sells within a timestamp. */
  predicate BuysFirst(fills: seq<Fill>) {
    && InTimeOrder(fills)
    && forall i, j :: 0 <= i < j < |fills| && fills[i].ts == fills[j].ts && fills[i].side.Sell? ==> fills[j].side.Sell?
  }

  /** How many leading fills happened by `t`. */
  function Until(fills: seq<Fill>, t: int): (n: nat)
    ensures n <= |fills|
    ensures forall i :: 0 <= i < n ==> fills[i].ts <= t
    ensures InTimeOrder(fills) ==> forall i :: n <= i < |fills| ==> fills[i].ts > t
  {
    if fills == [] || fills[0].ts > t then 0 else 1 + Until(fills[1..], t)
  }

  /** Two orderings of the same fills have the same fills by any time. */
  lemma {:induction false} SameUntil(f: seq<Fill>, g: seq<Fill>, t: int)
    requires InTimeOrder(f) && InTimeOrder(g) && multiset(f) == multiset(g)
    ensures multiset(f[..Until(f, t)]) == multiset(g[..Until(g, t)])
  {
    SameParts(f, g, Until(f, t), Until(g, t), (x: Fill) => x.ts <= t);
  }

  function DeltaOn(pair: Pair): Fill -> real {
    (f: Fill) => Delta(f, pair)
  }

  function CashMoves(): Fill -> real {
    (f: Fill) => CashDelta(f)
  }

  /** Accepted fills move cash and sizes by their totals, and a long-only ledger stays long-only. */
  lemma {:induction false} ReplayTotals(b: Books, fills: seq<Fill>)
    requires LongOnly(b) && NotNegative(fills) && ReplayFills(b, fills).Success?
    ensures var after := ReplayFills(b, fills).value;
            && LongOnly(after)
            && after.cash == b.cash + Total(fills, CashMoves())
            && (forall p :: PositionOf(after, p).size == PositionOf(b, p).size + Total(fills, DeltaOn(p)))
    decreases |fills|
  {
    if fills != [] {
      assert fills[0] in fills;
      var next := ApplySpot(b, fills[0]).value.books;
      SizeAfter(false, b, fills[0], false);
      ReplayTotals(next, fills[1..]);
    }
  }

  lemma {:induction false} SellsLower(fills: seq<Fill>, pair: Pair)
    requires NotNegative(fills) && forall f :: f in fills ==> f.side.Sell?
    ensures Total(fills, DeltaOn(pair)) <= 0.0
    decreases |fills|
  {
    if fills != [] {
      assert fills[0] in fills;
      SellsLower(fills[1..], pair);
    }
  }

  /** By any time, the accepted order leaves no position negative. */
  lemma {:induction false} HeldByTime(b: Books, f: seq<Fill>, t: int, pair: Pair)
    requires LongOnly(b) && NotNegative(f) && ReplayFills(b, f).Success?
    ensures PositionOf(b, pair).size + Total(f[..Until(f, t)], DeltaOn(pair)) >= 0.0
  {
    var early, late := f[..Until(f, t)], f[Until(f, t)..];
    assert early + late == f;
    ReplayAppend(b, early, late);
    ReplayTotals(b, early);
    assert PositionOf(ReplayFills(b, early).value, pair).size >= 0.0;
  }

  /** Behind a sell of its own timestamp only sells follow. */
  lemma {:induction false} OnlySellsFollow(g: seq<Fill>, k: nat, pair: Pair)
    requires NotNegative(g) && BuysFirst(g) && k < |g| && g[k].side.Sell?
    ensures k < Until(g, g[k].ts)
    ensures Total(g[k + 1..Until(g, g[k].ts)], DeltaOn(pair)) <= 0.0
  {
    var rest := g[k + 1..Until(g, g[k].ts)];
    forall x | x in rest ensures x.side.Sell? && x.size >= 0.0 {
      var i :| 0 <= i < |rest| && rest[i] == x;
      assert x == g[k + 1 + i] && g[k].ts <= g[k + 1 + i].ts;
    }
    SellsLower(rest, pair);
  }

  /** In the loaded order every sell is covered by what precedes it. */
  lemma {:induction false} SellIsCovered(b: Books, f: seq<Fill>, g: seq<Fill>, k: nat)
    requires LongOnly(b) && NotNegative(f) && NotNegative(g) && ReplayFills(b, f).Success?
    requires InTimeOrder(f) && BuysFirst(g) && multiset(f) == multiset(g)
    requires k < |g| && g[k].side.Sell?
    ensures g[k].size <= PositionOf(b, g[k].pair).size + Total(g[..k], DeltaOn(g[k].pair))
  {
    var t, pair := g[k].ts, g[k].pair;
    HeldByTime(b, f, t, pair);
    SameUntil(f, g, t);
    TotalPermutes(f[..Until(f, t)], g[..Until(g, t)], DeltaOn(pair));
    OnlySellsFollow(g, k, pair);
    WithoutFill(g, k, Until(g, t), pair);
  }

  lemma WithoutFill(g: seq<Fill>, k: nat, m: nat, pair: Pair)
    requires k < m <= |g|
    ensures Total(g[..m], DeltaOn(pair))
         == Total(g[..k], DeltaOn(pair)) + Delta(g[k], pair) + Total(g[k + 1..m], DeltaOn(pair))
  {
    assert g[..m] == g[..k] + [g[k]] + g[k + 1..m];
    TotalInsert(g[..k], g[k], g[k + 1..m], DeltaOn(pair));
    TotalAppend(g[..k], g[k + 1..m], DeltaOn(pair));
  }

  lemma {:induction false} ReplayOneMore(b: Books, g: seq<Fill>, k: nat)
    requires k < |g| && ReplayFills(b, g[..k]).Success?
    ensures var here := ApplySpot(ReplayFills(b, g[..k]).value, g[k]);
            if here.Success? then ReplayFills(b, g[..k + 1]) == Success(here.value.books)
            else ReplayFills(b, g) == Failure(here.error)
  {
    var here := ReplayFills(b, g[..k]).value;
    ReplayAppend(b, g[..k], [g[k]]);
    ReplayAppend(b, g[..k], g[k..]);
    assert g[..k] + [g[k]] == g[..k + 1] && g[..k] + g[k..] == g && [g[k]][1..] == [];
  }

  lemma {:induction false} LoadedReplayFrom(b: Books, f: seq<Fill>, g: seq<Fill>, k: nat)
    requires LongOnly(b) && NotNegative(f) && NotNegative(g) && ReplayFills(b, f).Success?
    requires InTimeOrder(f) && BuysFirst(g) && multiset(f) == multiset(g)
    requires k <= |g| && ReplayFills(b, g[..k]).Success?
    ensures ReplayFills(b, g).Failure? ==> ReplayFills(b, g).error == InsufficientFunds
    decreases |g| - k
  {
    if k == |g| {
      assert g[..k] == g;
    } else {
      ReplayOneMore(b, g, k);
      ReplayTotals(b, g[..k]);
      if g[k].side.Sell? {
        SellIsCovered(b, f, g, k);
      }
      if ApplySpot(ReplayFills(b, g[..k]).value, g[k]).Success? {
        LoadedReplayFrom(b, f, g, k + 1);
      }
    }
  }

  /** Fills loaded buys-first within each timestamp: no sell ever exceeds its position, and
      unless a buy runs out of cash the final cash and sizes are those of the original order. */
  lemma {:induction false} LoadedOrderIsSafe(b: Books, f: seq<Fill>, g: seq<Fill>)
    requires LongOnly(b) && NotNegative(f) && ReplayFills(b, f).Success?
    requires InTimeOrder(f) && BuysFirst(g) && multiset(f) == multiset(g)
    ensures ReplayFills(b, g).Failure? ==> ReplayFills(b, g).error == InsufficientFunds
    ensures ReplayFills(b, g).Success? ==>
              && ReplayFills(b, g).value.cash == ReplayFills(b, f).value.cash
              && forall p :: PositionOf(ReplayFills(b, g).value, p).size == PositionOf(ReplayFills(b, f).value, p).size
  {
    forall x | x in g ensures x.size >= 0.0 {
      assert x in multiset(g);
      assert x in f;
    }
    assert g[..0] == [];
    LoadedReplayFrom(b, f, g, 0);
    ReplayTotals(b, f);
    if ReplayFills(b, g).Success? {
      ReplayTotals(b, g);
      TotalPermutes(f, g, CashMoves());
      forall p ensures Total(f, DeltaOn(p)) == Total(g, DeltaOn(p)) {
        TotalPermutes(f, g, DeltaOn(p));
      }
    }
  }

  // ----- finding the chain -----

  type RunId = nat

  /** A resume chain: root first, each run resumed from the one before, no run twice. */
  ghost predicate IsChain(resumedFrom: map<RunId, Option<RunId>>, chain: seq<RunId>, tip: RunId) {
    && chain != [] && chain[|chain| - 1] == tip
    && (forall i :: 0 <= i < |chain| ==> chain[i] in resumedFrom)
    && resumedFrom[chain[0]] == None
    && (forall i :: 0 < i < |chain| ==> resumedFrom[chain[i]] == Some(chain[i - 1]))
    && (forall i, j :: 0 <= i < j < |chain| ==> chain[i] != chain[j])
  }

  /** Walking back from the tip only ever follows the one chain there can be. */
  ghost predicate WalkedBack(resumedFrom: map<RunId, Option<RunId>>, walk: seq<RunId>, tip: RunId) {
    && walk != [] && walk[0] == tip
    && (forall i :: 0 <= i < |walk| ==> walk[i] in resumedFrom)
    && (forall i :: 0 < i < |walk| ==> resumedFrom[walk[i - 1]] == Some(walk[i]))
    && (forall i, j :: 0 <= i < j < |walk| ==> walk[i] != walk[j])
  }

  lemma {:induction false} ChainFollowsWalk(resumedFrom: map<RunId, Option<RunId>>, walk: seq<RunId>,
                                            chain: seq<RunId>, tip: RunId, n: nat)
    requires WalkedBack(resumedFrom, walk, tip) && IsChain(resumedFrom, chain, tip)
    requires n < |walk|
    ensures n < |chain| && chain[|chain| - 1 - n] == walk[n]
  {
    if n > 0 {
      ChainFollowsWalk(resumedFrom, walk, chain, tip, n - 1);
      assert chain[|chain| - n] == walk[n - 1];
      assert resumedFrom[walk[n - 1]] == Some(walk[n]);
    }
  }

  /** The walk fails only when there is no chain: a parent is gone, or the parents cycle. */
  method ChainRows(resumedFrom: map<RunId, Option<RunId>>, tip: RunId) returns (r: Option<seq<RunId>>)
    requires tip in resumedFrom
    ensures r.Some? ==> IsChain(resumedFrom, r.value, tip)
    ensures r.None? ==> !exists chain :: IsChain(resumedFrom, chain, tip)
  {
    var chain := [tip];
    var seen := {tip};
    var row := tip;
    while resumedFrom[row].Some?
      invariant WalkedBack(resumedFrom, chain, tip) && row == chain[|chain| - 1]
      invariant seen == (set x | x in chain) && seen <= resumedFrom.Keys
      decreases resumedFrom.Keys - seen
    {
      var parent := resumedFrom[row].value;
      if parent in seen || parent !in resumedFrom {
        forall c ensures !IsChain(resumedFrom, c, tip) {
          NoChain(resumedFrom, chain, c, tip);
        }
        return None;
      }
      chain := chain + [parent];
      seen := seen + {parent};
      row := parent;
    }
    r := Some(seq(|chain|, i requires 0 <= i < |chain| => chain[|chain| - 1 - i]));
  }

  lemma NoChain(resumedFrom: map<RunId, Option<RunId>>, walk: seq<RunId>, chain: seq<RunId>, tip: RunId)
    requires WalkedBack(resumedFrom, walk, tip)
    requires resumedFrom[walk[|walk| - 1]].Some?
    requires resumedFrom[walk[|walk| - 1]].value in walk || resumedFrom[walk[|walk| - 1]].value !in resumedFrom
    ensures !IsChain(resumedFrom, chain, tip)
  {
    if IsChain(resumedFrom, chain, tip) {
      var n := |walk| - 1;
      var parent := resumedFrom[walk[n]].value;
      ChainFollowsWalk(resumedFrom, walk, chain, tip, n);
      assert chain[|chain| - 1 - n] == walk[n];
      assert chain[|chain| - 2 - n] == parent;
      var i :| 0 <= i < |walk| && walk[i] == parent;
      ChainFollowsWalk(resumedFrom, walk, chain, tip, i);
    }
  }
}
