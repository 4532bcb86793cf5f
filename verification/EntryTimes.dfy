/** When a position was opened: its entry time, told from running sums of the fills alone
    (kaupo/ledger/ledger.py, kaupo/core/resume.py). */
module EntryTimes {
  import opened Domain
  import opened Accounting
  import Resume

  /** The size held before fill k. */
  function Before(held: real, fills: seq<Fill>, pair: Pair, k: nat): real
    requires k <= |fills|
  {
    held + NetDelta(fills[..k], pair)
  }

  /** From nothing to something, or through nothing to the other side. */
  predicate TurnsOpen(before: real, after: real) {
    after != 0.0 && (before == 0.0 || before < 0.0 < after || after < 0.0 < before)
  }

  /** Fill k found the pair flat or took it through zero. */
  predicate Opens(held: real, fills: seq<Fill>, pair: Pair, k: nat)
    requires k < |fills|
  {
    var before := Before(held, fills, pair, k);
    fills[k].pair == pair && TurnsOpen(before, before + Delta(fills[k], pair))
  }

  ghost predicate LastOpening(held: real, fills: seq<Fill>, pair: Pair, k: nat)
    requires k < |fills|
  {
    Opens(held, fills, pair, k) && forall j :: k < j < |fills| ==> !Opens(held, fills, pair, j)
  }

  ghost predicate NeverOpens(held: real, fills: seq<Fill>, pair: Pair) {
    forall k :: 0 <= k < |fills| ==> !Opens(held, fills, pair, k)
  }

  ghost predicate Trades(fills: seq<Fill>, pair: Pair) {
    exists f :: f in fills && f.pair == pair
  }

  ghost predicate AllPositive(fills: seq<Fill>) {
    forall f :: f in fills ==> f.size > 0.0
  }

  /** A position that is not flat was entered when a fill last opened it, or as it was carried in; a
      flat one that traded in real sizes has no entry time. */
  ghost predicate EnteredAt(pos: Position, start: Position, fills: seq<Fill>, pair: Pair) {
    && pos.size == start.size + NetDelta(fills, pair)
    && (pos.size != 0.0 ==>
          && (forall k :: 0 <= k < |fills| && LastOpening(start.size, fills, pair, k) ==>
                pos.entryTs == Some(fills[k].ts))
          && (NeverOpens(start.size, fills, pair) ==> pos.entryTs == start.entryTs))
    && (pos.size == 0.0 && AllPositive(fills) && Trades(fills, pair) ==> pos.entryTs == None)
    && (!Trades(fills, pair) ==> pos == start)
  }

  /** What one accepted fill does to the position of `pair`. */
  predicate Enters(pos: Position, next: Position, f: Fill, pair: Pair) {
    && next.size == pos.size + Delta(f, pair)
    && (f.pair != pair ==> next == pos)
    && (f.pair == pair && next.size != 0.0 ==>
          next.entryTs == if TurnsOpen(pos.size, next.size) then Some(f.ts) else pos.entryTs)
    && (f.pair == pair && next.size == 0.0 && f.size > 0.0 ==> next.entryTs == None)
  }

  lemma {:induction false} NetOne(fills: seq<Fill>, f: Fill, pair: Pair)
    ensures NetDelta(fills + [f], pair) == NetDelta(fills, pair) + Delta(f, pair)
  {
    NetDeltaAppend(fills, [f], pair);
    assert [f][1..] == [];
  }

  lemma OpensSame(held: real, fills: seq<Fill>, f: Fill, pair: Pair, k: nat)
    requires k < |fills|
    ensures Opens(held, fills + [f], pair, k) <==> Opens(held, fills, pair, k)
  {
    assert (fills + [f])[..k] == fills[..k];
  }

  lemma {:induction false} OpensNow(held: real, fills: seq<Fill>, f: Fill, pair: Pair)
    ensures Opens(held, fills + [f], pair, |fills|)
       <==> f.pair == pair && TurnsOpen(held + NetDelta(fills, pair), held + NetDelta(fills, pair) + Delta(f, pair))
  {
    assert (fills + [f])[..|fills|] == fills;
  }

  lemma TradesNow(fills: seq<Fill>, f: Fill, pair: Pair)
    ensures Trades(fills + [f], pair) <==> Trades(fills, pair) || f.pair == pair
    ensures AllPositive(fills + [f]) <==> AllPositive(fills) && f.size > 0.0
  {
    var all := fills + [f];
    assert f in all && forall g :: g in fills ==> g in all;
  }

  /** One fill more. */
  lemma NextEntry(pos: Position, next: Position, start: Position, fills: seq<Fill>, f: Fill, pair: Pair)
    requires EnteredAt(pos, start, fills, pair) && Enters(pos, next, f, pair)
    ensures EnteredAt(next, start, fills + [f], pair)
  {
    var all := fills + [f];
    NetOne(fills, f, pair);
    TradesNow(fills, f, pair);
    OpensNow(start.size, fills, f, pair);
    forall k | 0 <= k < |fills| ensures Opens(start.size, all, pair, k) <==> Opens(start.size, fills, pair, k) {
      OpensSame(start.size, fills, f, pair, k);
    }
    if Opens(start.size, all, pair, |fills|) {
      assert forall k :: 0 <= k < |all| && LastOpening(start.size, all, pair, k) ==> k == |fills|;
    } else {
      SameOpenings(start.size, fills, f, pair);
    }
  }

  lemma SameOpenings(held: real, fills: seq<Fill>, f: Fill, pair: Pair)
    requires !Opens(held, fills + [f], pair, |fills|)
    ensures NeverOpens(held, fills + [f], pair) ==> NeverOpens(held, fills, pair)
    ensures forall k :: 0 <= k < |fills| + 1 && LastOpening(held, fills + [f], pair, k) ==>
              k < |fills| && LastOpening(held, fills, pair, k)
  {
    var all := fills + [f];
    forall k | 0 <= k < |fills| ensures Opens(held, all, pair, k) <==> Opens(held, fills, pair, k) {
      OpensSame(held, fills, f, pair, k);
    }
    if NeverOpens(held, all, pair) {
      forall k | 0 <= k < |fills| ensures !Opens(held, fills, pair, k) {
        OpensSame(held, fills, f, pair, k);
      }
    }
    forall k | 0 <= k < |all| && LastOpening(held, all, pair, k)
      ensures k < |fills| && LastOpening(held, fills, pair, k)
    {
      forall j | k < j < |fills| ensures !Opens(held, fills, pair, j) {
        OpensSame(held, fills, f, pair, j);
      }
    }
  }

  lemma NoFills(start: Position, pair: Pair)
    ensures EnteredAt(start, start, [], pair)
  {}

  // ----- one accepted fill -----

  lemma SpotEnters(b: Books, f: Fill, pair: Pair)
    requires LongOnly(b) && f.size >= 0.0 && ApplySpot(b, f).Success?
    ensures Enters(PositionOf(b, pair), PositionOf(ApplySpot(b, f).value.books, pair), f, pair)
    ensures LongOnly(ApplySpot(b, f).value.books)
  {}

  lemma PerpEnters(b: Books, f: Fill, force: bool, pair: Pair)
    requires f.size > 0.0 && ApplyPerp(b, f, force).Success?
    ensures Enters(PositionOf(b, pair), PositionOf(ApplyPerp(b, f, force).value.books, pair), f, pair)
  {
    SizeAfter(true, b, f, force);
    if f.pair == pair {
      PerpEntry(PositionOf(b, pair), f);
    }
  }

  lemma PerpEntry(pos: Position, f: Fill)
    requires f.size > 0.0
    ensures var next := PerpMove(pos, f).0;
            && (next.size != 0.0 ==>
                  next.entryTs == if TurnsOpen(pos.size, next.size) then Some(f.ts) else pos.entryTs)
            && (next.size == 0.0 ==> next.entryTs == None)
  {
    var closing := ClosingSize(pos, f);
    var closeFee, openFee := Share(f.fee, closing, f.size), Share(f.fee, f.size - closing, f.size);
    LegsEntry(pos, f.side, closing, f.size - closing, f.price, closeFee, openFee, f.ts);
  }

  lemma LegsEntry(pos: Position, side: Side, closing: real, rest: real, price: real, closeFee: real, openFee: real,
                  ts: int)
    requires 0.0 <= closing && 0.0 <= rest && closing + rest > 0.0
    requires closing > 0.0 ==> if side.Sell? then closing <= pos.size else closing <= -pos.size
    requires rest > 0.0 ==> if side.Sell? then pos.size <= closing else -pos.size <= closing
    ensures var next := Legs(pos, side, closing, rest, price, closeFee, openFee, ts).0;
            && (next.size != 0.0 ==> next.entryTs == if TurnsOpen(pos.size, next.size) then Some(ts) else pos.entryTs)
            && (next.size == 0.0 ==> next.entryTs == None)
  {}

  // ----- a ledger fed a list of fills -----

  /** Over any fills a spot ledger accepts. */
  lemma {:induction false} ReplayEnters(b: Books, fills: seq<Fill>, pair: Pair)
    requires LongOnly(b) && Resume.NotNegative(fills) && ReplayFills(b, fills).Success?
    ensures EnteredAt(PositionOf(ReplayFills(b, fills).value, pair), PositionOf(b, pair), fills, pair)
    ensures LongOnly(ReplayFills(b, fills).value)
  {
    if fills == [] {
      NoFills(PositionOf(b, pair), pair);
    } else {
      var init, f := fills[..|fills| - 1], fills[|fills| - 1];
      assert fills == init + [f] && f in fills;
      assert forall g :: g in init ==> g in fills;
      Resume.ReplayAppend(b, init, [f]);
      ReplayEnters(b, init, pair);
      var before := ReplayFills(b, init).value;
      assert [f][1..] == [];
      assert ReplayFills(before, [f]).Success? ==> ApplySpot(before, f).Success?;
      SpotEnters(before, f, pair);
      NextEntry(PositionOf(before, pair), PositionOf(ApplySpot(before, f).value.books, pair), PositionOf(b, pair),
                init, f, pair);
    }
  }

  /** The same for ledgers chained by carry-in: a successor remembers when a position it carries was
      opened, from the fills of every run before it. */
  lemma {:induction false} ChainEnters(b: Books, runs: seq<seq<Fill>>, pair: Pair)
    requires LongOnly(b) && Resume.NotNegative(Resume.Concat(runs)) && Resume.Chain(b, runs).Success?
    requires PositionOf(Resume.Chain(b, runs).value, pair).size != 0.0
    ensures EnteredAt(PositionOf(Resume.Chain(b, runs).value, pair), PositionOf(b, pair), Resume.Concat(runs), pair)
  {
    Resume.ChainEqualsOneReplay(b, b, runs);
    ReplayEnters(b, Resume.Concat(runs), pair);
    Resume.SamePosition(Resume.Chain(b, runs).value, ReplayFills(b, Resume.Concat(runs)).value, pair);
  }

  // ----- any history, spot or perp -----

  /** The fill an event brings in, if the ledger accepts it. */
  function AcceptedFill(perp: bool, b: Books, e: Event): seq<Fill>
    requires Processes(perp, e)
  {
    match e
    case Funding(_) => []
    case Trade(f) => if Fills(perp, b, f, false).Success? then [f] else []
    case Liquidation(f) => if ApplyPerp(b, f, true).Success? then [f] else []
  }

  /** The fills a history gets into the books, in order. */
  function AcceptedFills(perp: bool, b: Books, events: seq<Event>): seq<Fill>
    requires Processable(perp, events)
    decreases |events|
  {
    if events == [] then []
    else AcceptedFill(perp, b, events[0]) + AcceptedFills(perp, Process(perp, b, events[0]), events[1..])
  }

  lemma EventEnters(perp: bool, b: Books, e: Event, pair: Pair, start: Position, fills: seq<Fill>)
    requires Processes(perp, e) && (!perp ==> LongOnly(b)) && EnteredAt(PositionOf(b, pair), start, fills, pair)
    ensures EnteredAt(PositionOf(Process(perp, b, e), pair), start, fills + AcceptedFill(perp, b, e), pair)
    ensures !perp ==> LongOnly(Process(perp, b, e))
  {
    assert fills + [] == fills;
    match e
    case Funding(_) =>
    case Trade(f) =>
      if Fills(perp, b, f, false).Success? {
        if perp {
          PerpEnters(b, f, false, pair);
        } else {
          SpotEnters(b, f, pair);
        }
        NextEntry(PositionOf(b, pair), PositionOf(Process(perp, b, e), pair), start, fills, f, pair);
      }
    case Liquidation(f) =>
      PerpEnters(b, f, true, pair);
      NextEntry(PositionOf(b, pair), PositionOf(Process(perp, b, e), pair), start, fills, f, pair);
  }

  lemma {:induction false} HistoryEntersFrom(perp: bool, b: Books, events: seq<Event>, pair: Pair, start: Position,
                                             fills: seq<Fill>)
    requires Processable(perp, events) && (!perp ==> LongOnly(b))
    requires EnteredAt(PositionOf(b, pair), start, fills, pair)
    ensures EnteredAt(PositionOf(Replay(perp, b, events), pair), start, fills + AcceptedFills(perp, b, events), pair)
    decreases |events|
  {
    if events == [] {
      assert fills + [] == fills;
    } else {
      var e := events[0];
      assert e in events;
      EventEnters(perp, b, e, pair, start, fills);
      var first, rest := AcceptedFill(perp, b, e), AcceptedFills(perp, Process(perp, b, e), events[1..]);
      HistoryEntersFrom(perp, Process(perp, b, e), events[1..], pair, start, fills + first);
      assert fills + first + rest == fills + (first + rest);
    }
  }

  /** Over any history, spot or perp, of fills, rejected fills, liquidation fills and funding: a
      position that is not flat was entered by the last accepted fill that found it flat or took it
      through zero. */
  lemma {:induction false} HistoryEnters(perp: bool, b: Books, events: seq<Event>, pair: Pair)
    requires Processable(perp, events) && (!perp ==> LongOnly(b))
    ensures EnteredAt(PositionOf(Replay(perp, b, events), pair), PositionOf(b, pair),
                      AcceptedFills(perp, b, events), pair)
  {
    NoFills(PositionOf(b, pair), pair);
    HistoryEntersFrom(perp, b, events, pair, PositionOf(b, pair), []);
    assert [] + AcceptedFills(perp, b, events) == AcceptedFills(perp, b, events);
  }
}
