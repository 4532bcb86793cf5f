/** Crash reconciliation: recover what the books miss, hand the venue its cursor, refuse drift
    (kaupo/core/live_reconcile.py). */
module LiveReconcile {
  import opened Domain
  import opened Accounting
  import opened ExchangeTrades
  import opened Keys
  import opened KrakenVenue
  import opened LiveProtocol
  import Resume
  import Sums

  const BASE_TOLERANCE := 0.000001
  const QUOTE_TOLERANCE := 1.0
  const CURSOR_MARGIN_MS := 1000
  const SIZE_TOLERANCE := 0.000000000001

  /** A fill row some live run of the pair recorded. */
  datatype FillRow = FillRow(orderId: OrderId, side: Side, price: real, size: real, fee: real, ts: int)

  function RowOf(f: Fill): FillRow {
    FillRow(f.orderId, f.side, f.price, f.size, f.fee, f.ts)
  }

  /** The audit trail: which platform order placed a txid, and every recorded fill. */
  datatype Trail = Trail(known: map<Txid, OrderId>, rows: seq<FillRow>)

  function Recorded(rows: seq<FillRow>, id: OrderId): real {
    if rows == [] then 0.0
    else
      var last := rows[|rows| - 1];
      Recorded(rows[..|rows| - 1], id) + (if last.orderId == id then last.size else 0.0)
  }

  /** The newest recorded fill. */
  function LastRecorded(rows: seq<FillRow>): (ts: Option<int>)
    ensures ts.None? <==> rows == []
    ensures ts.Some? ==> exists i :: 0 <= i < |rows| && rows[i].ts == ts.value
    ensures ts.Some? ==> forall i :: 0 <= i < |rows| ==> rows[i].ts <= ts.value
  {
    if rows == [] then None
    else
      var before, last := LastRecorded(rows[..|rows| - 1]), rows[|rows| - 1].ts;
      if before.Some? && before.value >= last then before else Some(last)
  }

  /** Where the books end: the newest recorded fill, never before the chain's root. */
  function Since(historySince: int, trail: Trail): int {
    var recordedUntil := LastRecorded(trail.rows);
    if recordedUntil.Some? && recordedUntil.value > historySince then recordedUntil.value else historySince
  }

  /** The fetch reaches back a little before that. */
  function WindowStart(historySince: int, trail: Trail): int {
    Since(historySince, trail) - CURSOR_MARGIN_MS
  }

  /** The order a txid's trades belong to. */
  function Target(trail: Trail, txid: Txid): OrderId {
    if txid in trail.known then trail.known[txid] else Unattributed(txid)
  }

  function RecordedFor(trail: Trail, txid: Txid): real {
    Recorded(trail.rows, Target(trail, txid))
  }

  /** A platform order has one txid, a synthetic order belongs to its own, and no recorded size
      is negative. */
  ghost predicate Consistent(trail: Trail) {
    && (forall x, y :: x in trail.known && y in trail.known && trail.known[x] == trail.known[y] ==> x == y)
    && (forall x, y :: x in trail.known && trail.known[x] == Unattributed(y) ==> x == y)
    && NotNegative(trail.rows)
  }

  ghost predicate NotNegative(rows: seq<FillRow>) {
    forall i :: 0 <= i < |rows| ==> rows[i].size >= 0.0
  }

  lemma {:induction false} RecordedNotNegative(rows: seq<FillRow>, id: OrderId)
    requires NotNegative(rows)
    ensures Recorded(rows, id) >= 0.0
  {
    if rows != [] {
      RecordedNotNegative(rows[..|rows| - 1], id);
    }
  }

  // ----- recovery -----

  /** The unrecorded part of a partly recorded order: same price, fee pro rata. */
  function RemainderFill(f: Fill, remainder: real): Fill
    requires f.size > 0.0
  {
    f.(size := remainder, fee := Share(f.fee, remainder, f.size))
  }

  /** What one exchange order still owes the books; None when they already hold it. */
  function Owed(trail: Trail, pair: Pair, txid: Txid, group: seq<ExchangeTrade>): Option<Fill> {
    if group == [] then None
    else
      var f := Aggregate(Target(trail, txid), pair, group);
      var remainder := f.size - RecordedFor(trail, txid);
      if remainder <= SIZE_TOLERANCE then None
      else if remainder < f.size then Some(RemainderFill(f, remainder))
      else Some(f)
  }

  datatype Missed = Missed(txid: Txid, fill: Fill)

  /** The fills the books miss, in the order of `txids`. */
  function MissedOf(trail: Trail, pair: Pair, trades: seq<ExchangeTrade>, txids: seq<Txid>): seq<Missed> {
    if txids == [] then []
    else
      var last := txids[|txids| - 1];
      var owed := Owed(trail, pair, last, Of(trades, last));
      MissedOf(trail, pair, trades, txids[..|txids| - 1]) + (if owed.Some? then [Missed(last, owed.value)] else [])
  }

  function TxidSet(trades: seq<ExchangeTrade>): set<int> {
    set i | 0 <= i < |trades| :: trades[i].txid
  }

  lemma {:induction false} TxidSetIs(trades: seq<ExchangeTrade>, x: int)
    ensures x in TxidSet(trades) <==> x >= 0 && Of(trades, x) != []
  {
    if x in TxidSet(trades) {
      var i :| 0 <= i < |trades| && trades[i].txid == x;
      OfElements(trades, x, trades[i]);
    }
    if x >= 0 && Of(trades, x) != [] {
      var first := Of(trades, x)[0];
      OfElements(trades, x, first);
      assert first in trades;
    }
  }

  /** The distinct txids, sorted. */
  ghost function SortedTxids(trades: seq<ExchangeTrade>): (s: seq<Txid>)
    ensures forall x :: x in s <==> Of(trades, x) != []
    ensures Increasing(s) && Distinct(s)
  {
    SortedKeysAre(TxidSet(trades));
    var s := SortedKeys(TxidSet(trades));
    assert forall i :: 0 <= i < |s| ==> s[i] in TxidSet(trades) by { Nonnegative(trades); }
    assert forall x: nat :: x in s <==> Of(trades, x) != [] by { Listed(trades); }
    s
  }

  lemma Nonnegative(trades: seq<ExchangeTrade>)
    ensures forall i :: 0 <= i < |SortedKeys(TxidSet(trades))| ==> SortedKeys(TxidSet(trades))[i] >= 0
  {
    var s := SortedKeys(TxidSet(trades));
    SortedKeysAre(TxidSet(trades));
    forall i | 0 <= i < |s| ensures s[i] >= 0 {
      assert s[i] in s;
      TxidSetIs(trades, s[i]);
    }
  }

  lemma {:induction false} Listed(trades: seq<ExchangeTrade>)
    ensures forall x: nat :: x in SortedKeys(TxidSet(trades)) <==> Of(trades, x) != []
  {
    SortedKeysAre(TxidSet(trades));
    forall x: nat ensures x in SortedKeys(TxidSet(trades)) <==> Of(trades, x) != [] {
      TxidSetIs(trades, x);
    }
  }

  /** The fills the books are missing, one per exchange order. */
  ghost function AllMissed(trail: Trail, pair: Pair, trades: seq<ExchangeTrade>): seq<Missed> {
    MissedOf(trail, pair, trades, SortedTxids(trades))
  }

  method RecoverMissed(trail: Trail, pair: Pair, trades: seq<ExchangeTrade>) returns (missed: seq<Missed>)
    ensures missed == AllMissed(trail, pair, trades)
  {
    var txids, groups := GroupByTxid(trades);
    TxidsAre(trades);
    SameKeys(trades, groups);
    var sorted := SortKeys(groups.Keys);
    missed := [];
    for i := 0 to |sorted|
      invariant missed == MissedOf(trail, pair, trades, SortedTxids(trades)[..i])
    {
      var x := sorted[i];
      assert x in SortedTxids(trades);
      MissedNext(trail, pair, trades, SortedTxids(trades), i);
      var owed := RecoverOne(trail, pair, x, groups[x]);
      if owed.Some? {
        missed := missed + [Missed(x, owed.value)];
      }
    }
    assert SortedTxids(trades)[..|sorted|] == SortedTxids(trades);
  }

  method RecoverOne(trail: Trail, pair: Pair, txid: Txid, group: seq<ExchangeTrade>) returns (owed: Option<Fill>)
    requires group != []
    ensures owed == Owed(trail, pair, txid, group)
  {
    var f := Aggregate(Target(trail, txid), pair, group);
    var remainder := f.size - RecordedFor(trail, txid);
    if remainder <= SIZE_TOLERANCE {
      return None;
    }
    if remainder < f.size {
      f := RemainderFill(f, remainder);
    }
    owed := Some(f);
  }

  lemma {:induction false} SameKeys(trades: seq<ExchangeTrade>, groups: map<Txid, seq<ExchangeTrade>>)
    requires forall x :: x in groups <==> Of(trades, x) != []
    ensures groups.Keys == TxidSet(trades)
  {
    forall x: int ensures x in TxidSet(trades) <==> x >= 0 && x in groups {
      TxidSetIs(trades, x);
    }
  }

  lemma {:induction false} MissedNext(trail: Trail, pair: Pair, trades: seq<ExchangeTrade>, txids: seq<Txid>, i: nat)
    requires i < |txids|
    ensures var owed := Owed(trail, pair, txids[i], Of(trades, txids[i]));
            MissedOf(trail, pair, trades, txids[..i + 1])
            == MissedOf(trail, pair, trades, txids[..i]) + (if owed.Some? then [Missed(txids[i], owed.value)] else [])
  {
    assert txids[..i + 1][..i] == txids[..i] && txids[..i + 1][i] == txids[i];
  }

  // ----- recording, and a crash in the middle of it -----

  /** A recovered fill and its order reach the database. */
  function Record(trail: Trail, m: Missed): Trail {
    Trail(trail.known[m.txid := m.fill.orderId], trail.rows + [RowOf(m.fill)])
  }

  function RecordAll(trail: Trail, missed: seq<Missed>): Trail {
    if missed == [] then trail else Record(RecordAll(trail, missed[..|missed| - 1]), missed[|missed| - 1])
  }

  /** An entry recovered for its own order, of exactly the size the books lack. */
  ghost predicate Fits(trail: Trail, trades: seq<ExchangeTrade>, m: Missed) {
    && m.fill.orderId == Target(trail, m.txid)
    && m.fill.size == TotalSize(Of(trades, m.txid)) - RecordedFor(trail, m.txid) > SIZE_TOLERANCE
  }

  lemma {:induction false} RecordedGrows(rows: seq<FillRow>, row: FillRow, id: OrderId)
    ensures Recorded(rows + [row], id) == Recorded(rows, id) + (if row.orderId == id then row.size else 0.0)
  {
    assert (rows + [row])[..|rows|] == rows;
  }

  /** Recording one recovered fill squares its own order and touches no other. */
  lemma {:induction false} RecordOne(trail: Trail, trades: seq<ExchangeTrade>, m: Missed, x: Txid)
    requires Consistent(trail) && Fits(trail, trades, m)
    ensures Consistent(Record(trail, m))
    ensures Target(Record(trail, m), x) == Target(trail, x)
    ensures RecordedFor(Record(trail, m), x) == if x == m.txid then TotalSize(Of(trades, x)) else RecordedFor(trail, x)
  {
    RecordedGrows(trail.rows, RowOf(m.fill), Target(trail, x));
  }

  lemma {:induction false} OwedFits(trail: Trail, pair: Pair, trades: seq<ExchangeTrade>, x: Txid)
    requires Consistent(trail)
    ensures var owed := Owed(trail, pair, x, Of(trades, x));
            && (owed.Some? <==> TotalSize(Of(trades, x)) - RecordedFor(trail, x) > SIZE_TOLERANCE)
            && (owed.Some? ==> Fits(trail, trades, Missed(x, owed.value)))
  {
    RecordedNotNegative(trail.rows, Target(trail, x));
    if Of(trades, x) != [] {
      AggregateConserves(Target(trail, x), pair, Of(trades, x));
    }
  }

  /** A partly recorded order contributes its remainder at the average price, and the fee of the
      remainder and of the recorded part make up the exchange's fee. */
  lemma {:induction false} RemainderIsProRata(trail: Trail, pair: Pair, trades: seq<ExchangeTrade>, x: Txid)
    requires Owed(trail, pair, x, Of(trades, x)).Some? && Consistent(trail)
    ensures var f, group, done := Owed(trail, pair, x, Of(trades, x)).value, Of(trades, x), RecordedFor(trail, x);
            && f.size + done == TotalSize(group) > 0.0
            && f.fee + Share(TotalFee(group), done, TotalSize(group)) == TotalFee(group)
            && Notional(f.price, TotalSize(group)) == TotalNotional(group)
  {
    var group, done := Of(trades, x), RecordedFor(trail, x);
    var whole := Aggregate(Target(trail, x), pair, group);
    RecordedNotNegative(trail.rows, Target(trail, x));
    AggregateConserves(Target(trail, x), pair, group);
    assert whole.size - done > SIZE_TOLERANCE;
    FeeSplit(TotalFee(group), TotalSize(group) - done, done, TotalSize(group));
    NoShare(TotalFee(group), done, TotalSize(group));
    if done > 0.0 {
      assert Owed(trail, pair, x, group) == Some(RemainderFill(whole, whole.size - done));
    } else {
      assert Owed(trail, pair, x, group) == Some(whole);
    }
  }

  function TxidsOf(missed: seq<Missed>): set<Txid> {
    set i | 0 <= i < |missed| :: missed[i].txid
  }

  /** One more txid adds its entry, or nothing. */
  lemma MissedLast(trail: Trail, pair: Pair, trades: seq<ExchangeTrade>, txids: seq<Txid>)
    requires txids != []
    ensures var init, last := txids[..|txids| - 1], txids[|txids| - 1];
            var before, owed := MissedOf(trail, pair, trades, init), Owed(trail, pair, last, Of(trades, last));
            MissedOf(trail, pair, trades, txids) == if owed.Some? then before + [Missed(last, owed.value)] else before
  {
    var before := MissedOf(trail, pair, trades, txids[..|txids| - 1]);
    assert before + [] == before;
  }

  lemma {:induction false} MissedTxids(trail: Trail, pair: Pair, trades: seq<ExchangeTrade>, txids: seq<Txid>, x: Txid)
    ensures x in TxidsOf(MissedOf(trail, pair, trades, txids))
        <==> x in txids && Owed(trail, pair, x, Of(trades, x)).Some?
  {
    if txids != [] {
      var init, last := txids[..|txids| - 1], txids[|txids| - 1];
      assert txids == init + [last];
      MissedLast(trail, pair, trades, txids);
      MissedTxids(trail, pair, trades, init, x);
      var owed := Owed(trail, pair, last, Of(trades, last));
      if owed.Some? {
        TxidsGrow(MissedOf(trail, pair, trades, init), Missed(last, owed.value));
      }
    }
  }

  lemma {:induction false} MissedEach(trail: Trail, pair: Pair, trades: seq<ExchangeTrade>, txids: seq<Txid>)
    requires Consistent(trail)
    ensures var missed := MissedOf(trail, pair, trades, txids);
            forall i :: 0 <= i < |missed| ==> Fits(trail, trades, missed[i]) && missed[i].txid in txids
  {
    if txids != [] {
      var init, last := txids[..|txids| - 1], txids[|txids| - 1];
      assert txids == init + [last];
      MissedLast(trail, pair, trades, txids);
      MissedEach(trail, pair, trades, init);
      OwedFits(trail, pair, trades, last);
    }
  }

  predicate OncePerOrder(missed: seq<Missed>) {
    forall i, j :: 0 <= i < j < |missed| ==> missed[i].txid != missed[j].txid
  }

  lemma {:induction false} MissedOnce(trail: Trail, pair: Pair, trades: seq<ExchangeTrade>, txids: seq<Txid>)
    requires Consistent(trail) && Distinct(txids)
    ensures OncePerOrder(MissedOf(trail, pair, trades, txids))
  {
    if txids != [] {
      InitOf(txids);
      MissedLast(trail, pair, trades, txids);
      MissedOnce(trail, pair, trades, txids[..|txids| - 1]);
      MissedEach(trail, pair, trades, txids[..|txids| - 1]);
    }
  }

  lemma {:induction false} MissedFit(trail: Trail, pair: Pair, trades: seq<ExchangeTrade>, txids: seq<Txid>)
    requires Consistent(trail) && Distinct(txids)
    ensures var missed := MissedOf(trail, pair, trades, txids);
            && (forall i :: 0 <= i < |missed| ==> Fits(trail, trades, missed[i]) && missed[i].txid in txids)
            && OncePerOrder(missed)
            && (forall x :: x in TxidsOf(missed) <==> x in txids && Owed(trail, pair, x, Of(trades, x)).Some?)
  {
    MissedEach(trail, pair, trades, txids);
    MissedOnce(trail, pair, trades, txids);
    forall x ensures x in TxidsOf(MissedOf(trail, pair, trades, txids))
                     <==> x in txids && Owed(trail, pair, x, Of(trades, x)).Some?
    {
      MissedTxids(trail, pair, trades, txids, x);
    }
  }

  lemma TxidsGrow(missed: seq<Missed>, m: Missed)
    ensures TxidsOf(missed + [m]) == TxidsOf(missed) + {m.txid}
  {
    assert (missed + [m])[|missed|] == m;
    forall x | x in TxidsOf(missed) ensures x in TxidsOf(missed + [m]) {
      var i :| 0 <= i < |missed| && missed[i].txid == x;
      assert (missed + [m])[i].txid == x;
    }
  }

  /** Recording any of the recovered fills squares exactly their orders. */
  lemma {:induction false} RecordSome(trail: Trail, trades: seq<ExchangeTrade>, missed: seq<Missed>, x: Txid)
    requires Consistent(trail) && forall i :: 0 <= i < |missed| ==> Fits(trail, trades, missed[i])
    requires OncePerOrder(missed)
    ensures Consistent(RecordAll(trail, missed)) && Target(RecordAll(trail, missed), x) == Target(trail, x)
    ensures RecordedFor(RecordAll(trail, missed), x)
         == if x in TxidsOf(missed) then TotalSize(Of(trades, x)) else RecordedFor(trail, x)
  {
    if missed != [] {
      var init, m := missed[..|missed| - 1], missed[|missed| - 1];
      assert forall i :: 0 <= i < |init| ==> init[i] == missed[i];
      RecordSome(trail, trades, init, x);
      RecordSome(trail, trades, init, m.txid);
      assert m.txid !in TxidsOf(init);
      RecordOne(RecordAll(trail, init), trades, m, x);
      assert x in TxidsOf(missed) <==> x in TxidsOf(init) || x == m.txid by {
        if x in TxidsOf(init) {
          var i :| 0 <= i < |init| && init[i].txid == x;
          assert missed[i].txid == x;
        }
        assert missed[|init|].txid == m.txid;
      }
    }
  }

  /** A later pass, over the trades in `again`, owes nothing to the orders in `done` and the same
      to the others. */
  ghost predicate Continues(trail: Trail, later: Trail, pair: Pair, trades: seq<ExchangeTrade>,
                            again: seq<ExchangeTrade>, txids: seq<Txid>, done: set<Txid>)
  {
    forall x :: x in txids ==>
      Owed(later, pair, x, Of(again, x)) == if x in done then None else Owed(trail, pair, x, Of(trades, x))
  }

  /** Entries already recorded drop out, the others stay as they were and in order. */
  lemma {:induction false} MissedAgain(trail: Trail, later: Trail, pair: Pair, trades: seq<ExchangeTrade>,
                                       again: seq<ExchangeTrade>, txids: seq<Txid>, done: set<Txid>, k: nat)
    requires Consistent(trail) && Distinct(txids)
    requires Continues(trail, later, pair, trades, again, txids, done)
    requires k <= |MissedOf(trail, pair, trades, txids)|
    requires forall x :: x in txids ==> (x in done <==> x in TxidsOf(MissedOf(trail, pair, trades, txids)[..k]))
    ensures MissedOf(later, pair, again, txids) == MissedOf(trail, pair, trades, txids)[k..]
  {
    if txids != [] {
      var n := |txids| - 1;
      var init, last := txids[..n], txids[n];
      var before, missed := MissedOf(trail, pair, trades, init), MissedOf(trail, pair, trades, txids);
      MissedNext(trail, pair, trades, txids, n);
      MissedNext(later, pair, again, txids, n);
      assert txids[..n + 1] == txids;
      InitOf(txids);
      var j := if k <= |before| then k else |before|;
      DoneInPrefix(trail, pair, trades, init, last, missed, done, k, j);
      assert Continues(trail, later, pair, trades, again, init, done);
      MissedAgain(trail, later, pair, trades, again, init, done, j);
      SuffixJoins(before, missed[|before|..], k, j, MissedOf(later, pair, again, txids)[|before| - j..]);
    }
  }

  lemma InitOf(txids: seq<Txid>)
    requires txids != [] && Distinct(txids)
    ensures var init, last := txids[..|txids| - 1], txids[|txids| - 1];
            Distinct(init) && last !in init && forall x :: x in txids <==> x in init || x == last
  {
    assert txids == txids[..|txids| - 1] + [txids[|txids| - 1]];
  }

  lemma SuffixJoins(before: seq<Missed>, part: seq<Missed>, k: nat, j: nat, laterPart: seq<Missed>)
    requires |part| <= 1 && k <= |before| + |part| && j == (if k <= |before| then k else |before|)
    requires laterPart == if k <= |before| then part else []
    ensures before[j..] + laterPart == (before + part)[k..]
  {}

  /** The recorded orders, seen from the list without its last txid. */
  lemma {:induction false} DoneInPrefix(trail: Trail, pair: Pair, trades: seq<ExchangeTrade>, init: seq<Txid>,
                                        last: Txid, missed: seq<Missed>, done: set<Txid>, k: nat, j: nat)
    requires Consistent(trail) && Distinct(init) && last !in init
    requires var before := MissedOf(trail, pair, trades, init);
             && (missed == before
                 || (|missed| == |before| + 1 && missed[..|before|] == before && missed[|before|].txid == last))
             && k <= |missed| && j == (if k <= |before| then k else |before|)
    requires forall x :: x in init || x == last ==> (x in done <==> x in TxidsOf(missed[..k]))
    ensures var before := MissedOf(trail, pair, trades, init);
            && (forall x :: x in init ==> (x in done <==> x in TxidsOf(before[..j])))
            && (last in done <==> k > |before|)
  {
    MissedFit(trail, pair, trades, init);
    PrefixTxids(MissedOf(trail, pair, trades, init), missed, last, k, j);
  }

  lemma PrefixTxids(before: seq<Missed>, missed: seq<Missed>, last: Txid, k: nat, j: nat)
    requires missed == before
        || (|missed| == |before| + 1 && missed[..|before|] == before && missed[|before|].txid == last)
    requires k <= |missed| && j == (if k <= |before| then k else |before|)
    ensures forall x :: x != last ==> (x in TxidsOf(missed[..k]) <==> x in TxidsOf(before[..j]))
    ensures k > |before| ==> last in TxidsOf(missed[..k])
    ensures k <= |before| && (forall i :: 0 <= i < |before| ==> before[i].txid != last)
        ==> last !in TxidsOf(missed[..k])
  {
    assert forall i :: 0 <= i < j ==> missed[..k][i] == before[..j][i];
    forall x | x in TxidsOf(before[..j]) ensures x in TxidsOf(missed[..k]) {
      var i :| 0 <= i < j && before[..j][i].txid == x;
      assert missed[..k][i].txid == x;
    }
    forall x | x != last && x in TxidsOf(missed[..k]) ensures x in TxidsOf(before[..j]) {
      var i :| 0 <= i < k && missed[..k][i].txid == x;
      assert i < |before| && before[..j][i].txid == x;
    }
    if k > |before| {
      assert missed[..k][|before|].txid == last;
    }
  }

  // ----- conservation -----

  /** Recorded plus recovered, per exchange order. */
  lemma {:induction false} RecoveredPerOrder(trail: Trail, pair: Pair, trades: seq<ExchangeTrade>, x: Txid)
    requires Consistent(trail)
    ensures var total, done := TotalSize(Of(trades, x)), RecordedFor(trail, x);
            RecordedFor(RecordAll(trail, AllMissed(trail, pair, trades)), x)
            == if total - done > SIZE_TOLERANCE then total else done
  {
    var missed := AllMissed(trail, pair, trades);
    MissedFit(trail, pair, trades, SortedTxids(trades));
    RecordSome(trail, trades, missed, x);
    OwedFits(trail, pair, trades, x);
  }

  /** The trades at or after `from`. */
  function Within(log: seq<ExchangeTrade>, from: int): seq<ExchangeTrade> {
    if log == [] then []
    else
      var t := log[|log| - 1];
      Within(log[..|log| - 1], from) + (if from <= t.ts then [t] else [])
  }

  function Older(log: seq<ExchangeTrade>, from: int): seq<ExchangeTrade> {
    if log == [] then []
    else
      var t := log[|log| - 1];
      Older(log[..|log| - 1], from) + (if from <= t.ts then [] else [t])
  }

  lemma {:induction false} WithinElements(log: seq<ExchangeTrade>, from: int)
    requires DistinctIds(log)
    ensures DistinctIds(Within(log, from))
    ensures forall t :: t in Within(log, from) <==> t in log && from <= t.ts
  {
    if log != [] {
      var init, last := log[..|log| - 1], log[|log| - 1];
      var w := Within(init, from);
      WithinElements(init, from);
      assert log == init + [last];
      forall t ensures t in Within(log, from) <==> t in w || (t == last && from <= t.ts) {
      }
      forall i | 0 <= i < |w| ensures w[i].id != last.id {
        assert w[i] in init;
        var k :| 0 <= k < |init| && init[k] == w[i];
        assert log[k].id != last.id;
      }
    }
  }

  lemma {:induction false} SizeOfAppend(a: seq<ExchangeTrade>, t: ExchangeTrade, x: Txid)
    ensures TotalSize(Of(a + [t], x)) == TotalSize(Of(a, x)) + ShareOf(t, x)
  {
    SizeOfConcat(a, [t], x);
    SizeOfOne(t, x);
  }

  lemma {:induction false} WithinOrOlder(log: seq<ExchangeTrade>, from: int, x: Txid)
    ensures TotalSize(Of(log, x)) == TotalSize(Of(Within(log, from), x)) + TotalSize(Of(Older(log, from), x))
  {
    if log != [] {
      var init, t := log[..|log| - 1], log[|log| - 1];
      WithinOrOlder(init, from, x);
      assert log == init + [t];
      SizeOfAppend(init, t, x);
      if from <= t.ts {
        SizeOfAppend(Within(init, from), t, x);
        assert Older(init, from) + [] == Older(init, from);
      } else {
        SizeOfAppend(Older(init, from), t, x);
        assert Within(init, from) + [] == Within(init, from);
      }
    }
  }

  /** What the answer holds of an order, plus what is older than the window, is what it executed. */
  lemma {:induction false} WindowSize(log: seq<ExchangeTrade>, answer: seq<ExchangeTrade>, from: int, x: Txid)
    requires DistinctIds(log) && Answers(answer, log, Some(from))
    ensures TotalSize(Of(log, x)) == TotalSize(Of(answer, x)) + TotalSize(Of(Older(log, from), x))
  {
    WithinElements(log, from);
    WithinOrOlder(log, from, x);
    SameTradesSameSize(answer, Within(log, from), x);
  }

  /** The books already hold the order, or the window holds what they lack. */
  predicate Reachable(unrecorded: real, older: real) {
    || (unrecorded <= SIZE_TOLERANCE && unrecorded - older <= SIZE_TOLERANCE)
    || (older <= SIZE_TOLERANCE && unrecorded - older > SIZE_TOLERANCE)
  }

  /** After reconciliation an order's books are within the tolerance of everything it executed if
      and only if they already were, or what is older than the window is within it and the rest
      was recovered. */
  lemma {:induction false} ReconciledWithinTolerance(trail: Trail, pair: Pair, log: seq<ExchangeTrade>,
                                                     answer: seq<ExchangeTrade>, from: int, x: Txid)
    requires Consistent(trail) && DistinctIds(log) && Answers(answer, log, Some(from))
    ensures var executed, older := TotalSize(Of(log, x)), TotalSize(Of(Older(log, from), x));
            var unrecorded := executed - RecordedFor(trail, x);
            executed - RecordedFor(RecordAll(trail, AllMissed(trail, pair, answer)), x) <= SIZE_TOLERANCE
            <==> Reachable(unrecorded, older)
  {
    BooksAfterPass(trail, pair, log, answer, from, x);
    ShortageReachable(TotalSize(Of(log, x)), TotalSize(Of(Older(log, from), x)), RecordedFor(trail, x),
                      RecordedFor(RecordAll(trail, AllMissed(trail, pair, answer)), x));
  }

  lemma ShortageReachable(executed: real, older: real, done: real, books: real)
    requires books == if executed - older - done > SIZE_TOLERANCE then executed - older else done
    ensures executed - books <= SIZE_TOLERANCE <==> Reachable(executed - done, older)
  {}

  lemma {:induction false} BooksAfterPass(trail: Trail, pair: Pair, log: seq<ExchangeTrade>, answer: seq<ExchangeTrade>,
                                          from: int, x: Txid)
    requires Consistent(trail) && DistinctIds(log) && Answers(answer, log, Some(from))
    ensures var done := RecordedFor(trail, x);
            var inWindow := TotalSize(Of(log, x)) - TotalSize(Of(Older(log, from), x));
            RecordedFor(RecordAll(trail, AllMissed(trail, pair, answer)), x)
            == if inWindow - done > SIZE_TOLERANCE then inWindow else done
  {
    RecoveredPerOrder(trail, pair, answer, x);
    WindowSize(log, answer, from, x);
  }

  /** When the window holds all trades of an order and the books never held more than it executed,
      recorded plus recovered equals the exchange's total up to the tolerance. */
  lemma {:induction false} CompleteWindowConserves(trail: Trail, pair: Pair, log: seq<ExchangeTrade>,
                                                   answer: seq<ExchangeTrade>, from: int, x: Txid)
    requires Consistent(trail) && DistinctIds(log) && Answers(answer, log, Some(from))
    requires RecordedFor(trail, x) <= TotalSize(Of(log, x)) && Of(Older(log, from), x) == []
    ensures TotalSize(Of(log, x)) - SIZE_TOLERANCE
         <= RecordedFor(RecordAll(trail, AllMissed(trail, pair, answer)), x) <= TotalSize(Of(log, x))
  {
    RecordedNotNegative(trail.rows, Target(trail, x));
    RecoveredPerOrder(trail, pair, answer, x);
    WindowSize(log, answer, from, x);
  }

  // ----- a second pass -----

  /** No trade is empty. */
  ghost predicate Positive(trades: seq<ExchangeTrade>) {
    forall t :: t in trades ==> t.size > 0.0
  }

  /** What a later window no longer sees. */
  lemma {:induction false} OlderGrows(log: seq<ExchangeTrade>, a: int, b: int, x: Txid)
    requires Positive(log) && a <= b
    ensures 0.0 <= TotalSize(Of(Older(log, a), x)) <= TotalSize(Of(Older(log, b), x))
  {
    if log != [] {
      var init, t := log[..|log| - 1], log[|log| - 1];
      assert log == init + [t];
      OlderGrows(init, a, b, x);
      if t.ts < a {
        SizeOfAppend(Older(init, a), t, x);
      } else {
        assert Older(init, a) + [] == Older(init, a);
      }
      if t.ts < b {
        SizeOfAppend(Older(init, b), t, x);
      } else {
        assert Older(init, b) + [] == Older(init, b);
      }
    }
  }

  /** Recording never moves the end of the books back. */
  lemma {:induction false} WindowMovesOn(historySince: int, trail: Trail, missed: seq<Missed>)
    ensures WindowStart(historySince, trail) <= WindowStart(historySince, RecordAll(trail, missed))
  {
    if missed != [] {
      var before := RecordAll(trail, missed[..|missed| - 1]);
      WindowMovesOn(historySince, trail, missed[..|missed| - 1]);
      var rows := RecordAll(trail, missed).rows;
      assert rows[..|rows| - 1] == before.rows;
    }
  }

  /** Once every recovered fill is recorded, a second pass recovers nothing: its window starts
      later, whatever the order of the answers. */
  lemma {:induction false} SecondPassRecoversNothing(trail: Trail, pair: Pair, log: seq<ExchangeTrade>,
                                                     historySince: int, first: seq<ExchangeTrade>,
                                                     second: seq<ExchangeTrade>)
    requires Consistent(trail) && DistinctIds(log) && Positive(log)
    requires Answers(first, log, Some(WindowStart(historySince, trail)))
    requires Answers(second, log,
                     Some(WindowStart(historySince, RecordAll(trail, AllMissed(trail, pair, first)))))
    ensures AllMissed(RecordAll(trail, AllMissed(trail, pair, first)), pair, second) == []
  {
    var later := RecordAll(trail, AllMissed(trail, pair, first));
    var txids, missed := SortedTxids(second), AllMissed(later, pair, second);
    WindowMovesOn(historySince, trail, AllMissed(trail, pair, first));
    AllRecorded(trail, pair, first);
    MissedFit(later, pair, second, txids);
    if missed != [] {
      var x := missed[0].txid;
      assert Fits(later, second, missed[0]);
      RecoveredPerOrder(trail, pair, first, x);
      WindowSize(log, first, WindowStart(historySince, trail), x);
      WindowSize(log, second, WindowStart(historySince, later), x);
      OlderGrows(log, WindowStart(historySince, trail), WindowStart(historySince, later), x);
    }
  }

  lemma {:induction false} AllRecorded(trail: Trail, pair: Pair, trades: seq<ExchangeTrade>)
    requires Consistent(trail)
    ensures Consistent(RecordAll(trail, AllMissed(trail, pair, trades)))
  {
    MissedFit(trail, pair, trades, SortedTxids(trades));
    RecordSome(trail, trades, AllMissed(trail, pair, trades), 0);
  }

  /** An order without trades before the window keeps all of them. */
  lemma {:induction false} WholeOrder(trades: seq<ExchangeTrade>, from: int, x: Txid)
    requires forall t :: t in Of(trades, x) ==> from <= t.ts
    ensures Of(Within(trades, from), x) == Of(trades, x)
  {
    if trades != [] {
      var init, t := trades[..|trades| - 1], trades[|trades| - 1];
      assert trades == init + [t];
      OfAppend(init, t, x);
      WholeOrder(init, from, x);
      OfAppend(Within(init, from), t, x);
      OfElements(trades, x, t);
      if t.ts < from {
        assert Within(init, from) + [] == Within(init, from);
      }
    }
  }

  /** An order with a trade before the window is worth less in it. */
  lemma {:induction false} CutOrder(trades: seq<ExchangeTrade>, from: int, x: Txid, t: ExchangeTrade)
    requires Positive(trades) && t in Of(trades, x) && t.ts < from
    ensures TotalSize(Of(Older(trades, from), x)) > 0.0
  {
    var init, last := trades[..|trades| - 1], trades[|trades| - 1];
    assert trades == init + [last];
    OfAppend(init, last, x);
    OlderGrows(init, from, from, x);
    if last.ts < from {
      SizeOfAppend(Older(init, from), last, x);
      if t in Of(init, x) {
        CutOrder(init, from, x, t);
      }
    } else {
      assert Older(init, from) + [] == Older(init, from);
      CutOrder(init, from, x, t);
    }
  }

  lemma {:induction false} WithinWithin(log: seq<ExchangeTrade>, a: int, b: int)
    requires a <= b
    ensures Within(Within(log, a), b) == Within(log, b)
  {
    if log != [] {
      var init, t := log[..|log| - 1], log[|log| - 1];
      WithinWithin(init, a, b);
      if a <= t.ts {
        assert (Within(init, a) + [t])[..|Within(init, a)|] == Within(init, a);
      } else {
        assert Within(init, a) + [] == Within(init, a) && Within(init, b) + [] == Within(init, b);
      }
    }
  }

  predicate Squared(trail: Trail, pair: Pair, trades: seq<ExchangeTrade>, x: Txid) {
    Owed(trail, pair, x, Of(trades, x)).None?
  }

  /** `part` lists every order of `all` that owes something. */
  ghost predicate ListsOwing(trail: Trail, pair: Pair, trades: seq<ExchangeTrade>, all: seq<Txid>, part: seq<Txid>) {
    && Increasing(all) && Increasing(part) && (forall x :: x in part ==> x in all)
    && (forall x :: x in all && x !in part ==> Squared(trail, pair, trades, x))
  }

  /** Orders that owe nothing need not be listed. */
  lemma {:induction false} Unlisted(trail: Trail, pair: Pair, trades: seq<ExchangeTrade>, all: seq<Txid>,
                                    part: seq<Txid>)
    requires ListsOwing(trail, pair, trades, all, part)
    ensures MissedOf(trail, pair, trades, all) == MissedOf(trail, pair, trades, part)
    decreases |all|
  {
    if all == [] {
      HeadIn(part);
    } else {
      var init, last := all[..|all| - 1], all[|all| - 1];
      assert all == init + [last];
      if last in part {
        var rest := DropBoth(trail, pair, trades, init, last, part);
        Unlisted(trail, pair, trades, init, rest);
        SameLast(trail, pair, trades, init, rest, last);
      } else {
        DropOne(trail, pair, trades, init, last, part);
        Unlisted(trail, pair, trades, init, part);
        NothingLast(trail, pair, trades, init, last);
      }
    }
  }

  lemma DropBoth(trail: Trail, pair: Pair, trades: seq<ExchangeTrade>, init: seq<Txid>, last: Txid, part: seq<Txid>)
    returns (rest: seq<Txid>)
    requires ListsOwing(trail, pair, trades, init + [last], part) && last in part
    ensures part == rest + [last] && ListsOwing(trail, pair, trades, init, rest)
  {
    rest := part[..|part| - 1];
    var end := part[|part| - 1];
    assert part == rest + [end];
    IncreasingInit(init, last);
    IncreasingInit(rest, end);
    assert end in part && end in init + [last];
    forall x | x in rest ensures x in init {
      assert x in part && x in init + [last];
    }
    forall x | x in init && x !in rest ensures Squared(trail, pair, trades, x) {
      assert x in init + [last] && x !in part;
    }
  }

  lemma HeadIn(s: seq<Txid>)
    ensures s == [] || s[0] in s
  {}

  lemma IncreasingInit(s: seq<Txid>, last: Txid)
    requires Increasing(s + [last])
    ensures Increasing(s) && forall x :: x in s ==> x < last
  {
    var all := s + [last];
    assert forall i :: 0 <= i < |s| ==> all[i] == s[i];
    forall x | x in s ensures x < last {
      var i :| 0 <= i < |s| && s[i] == x;
      assert all[i] < all[|s|];
    }
  }

  lemma DropOne(trail: Trail, pair: Pair, trades: seq<ExchangeTrade>, init: seq<Txid>, last: Txid, part: seq<Txid>)
    requires ListsOwing(trail, pair, trades, init + [last], part) && last !in part
    ensures ListsOwing(trail, pair, trades, init, part) && Squared(trail, pair, trades, last)
  {
    IncreasingInit(init, last);
    assert last in init + [last];
    forall x | x in init && x !in part ensures Squared(trail, pair, trades, x) {
      assert x in init + [last];
    }
  }

  lemma {:induction false} SameLast(trail: Trail, pair: Pair, trades: seq<ExchangeTrade>, a: seq<Txid>, b: seq<Txid>,
                                    last: Txid)
    requires MissedOf(trail, pair, trades, a) == MissedOf(trail, pair, trades, b)
    ensures MissedOf(trail, pair, trades, a + [last]) == MissedOf(trail, pair, trades, b + [last])
  {
    MissedLast(trail, pair, trades, a + [last]);
    MissedLast(trail, pair, trades, b + [last]);
    assert (a + [last])[..|a|] == a && (b + [last])[..|b|] == b;
  }

  lemma {:induction false} NothingLast(trail: Trail, pair: Pair, trades: seq<ExchangeTrade>, a: seq<Txid>, last: Txid)
    requires Squared(trail, pair, trades, last)
    ensures MissedOf(trail, pair, trades, a + [last]) == MissedOf(trail, pair, trades, a)
  {
    MissedLast(trail, pair, trades, a + [last]);
    assert (a + [last])[..|a|] == a;
  }

  /** The trades a remaining order had in the first window are all in the second. */
  ghost predicate StillInWindow(missed: seq<Missed>, k: nat, first: seq<ExchangeTrade>, from: int) {
    forall i, t :: k <= i < |missed| && t in Of(first, missed[i].txid) ==> from <= t.ts
  }

  lemma SameOwed(trail: Trail, later: Trail, pair: Pair, group: seq<ExchangeTrade>, x: Txid)
    requires Target(later, x) == Target(trail, x) && RecordedFor(later, x) == RecordedFor(trail, x)
    ensures Owed(later, pair, x, group) == Owed(trail, pair, x, group)
  {}

  /** An order the books hold owes nothing in a later window either. */
  lemma {:induction false} StillOwesNothing(later: Trail, pair: Pair, first: seq<ExchangeTrade>, from: int, x: Txid)
    requires Consistent(later) && Positive(first)
    requires TotalSize(Of(first, x)) - RecordedFor(later, x) <= SIZE_TOLERANCE
    ensures Owed(later, pair, x, Of(Within(first, from), x)).None?
  {
    WithinOrOlder(first, from, x);
    OlderGrows(first, from, from, x);
    OwedFits(later, pair, Within(first, from), x);
  }

  /** The first k recovered fills, recorded. */
  ghost function Later(trail: Trail, pair: Pair, first: seq<ExchangeTrade>, k: nat): (later: Trail)
    requires Consistent(trail) && k <= |AllMissed(trail, pair, first)|
    ensures Consistent(later)
  {
    RecordedPart(trail, pair, first, k, 0);
    RecordAll(trail, AllMissed(trail, pair, first)[..k])
  }

  lemma {:induction false} RecordedPart(trail: Trail, pair: Pair, first: seq<ExchangeTrade>, k: nat, x: Txid)
    requires Consistent(trail) && k <= |AllMissed(trail, pair, first)|
    ensures var done := AllMissed(trail, pair, first)[..k];
            var later := RecordAll(trail, done);
            && Consistent(later) && Target(later, x) == Target(trail, x)
            && RecordedFor(later, x)
               == (if x in TxidsOf(done) then TotalSize(Of(first, x)) else RecordedFor(trail, x))
  {
    MissedFit(trail, pair, first, SortedTxids(first));
    RecordSome(trail, first, AllMissed(trail, pair, first)[..k], x);
  }

  lemma Remaining(missed: seq<Missed>, k: nat, x: Txid)
    requires k <= |missed| && x in TxidsOf(missed) && x !in TxidsOf(missed[..k])
    ensures exists i :: k <= i < |missed| && missed[i].txid == x
  {
    forall i | 0 <= i < k ensures missed[i].txid != x {
      assert missed[..k][i] == missed[i];
    }
  }

  /** What a second pass over a later window owes one order, after the first k recovered fills
      were recorded. */
  lemma {:induction false} OwedAgain(trail: Trail, pair: Pair, first: seq<ExchangeTrade>, from: int, k: nat, x: Txid)
    requires Consistent(trail) && Positive(first) && x in SortedTxids(first)
    requires k <= |AllMissed(trail, pair, first)| && StillInWindow(AllMissed(trail, pair, first), k, first, from)
    ensures Owed(Later(trail, pair, first, k), pair, x, Of(Within(first, from), x))
         == if x in TxidsOf(AllMissed(trail, pair, first)[..k]) then None else Owed(trail, pair, x, Of(first, x))
  {
    var missed, later := AllMissed(trail, pair, first), Later(trail, pair, first, k);
    MissedTxids(trail, pair, first, SortedTxids(first), x);
    RecordedPart(trail, pair, first, k, x);
    if x in TxidsOf(missed) && x !in TxidsOf(missed[..k]) {
      Remaining(missed, k, x);
      WholeOrder(first, from, x);
      SameOwed(trail, later, pair, Of(first, x), x);
    } else {
      OwedFits(trail, pair, first, x);
      StillOwesNothing(later, pair, first, from, x);
    }
  }

  /** After the first k recovered fills were recorded, a second pass recovers exactly the rest if
      and only if every trade of each remaining order lies in its window, which starts a margin
      before the newest recorded fill. The client hands out trades in one order. */
  lemma {:induction false} SecondPassRecoversTheRest(trail: Trail, pair: Pair, log: seq<ExchangeTrade>,
                                                     historySince: int, k: nat)
    requires Consistent(trail) && DistinctIds(log) && Positive(log)
    requires k <= |AllMissed(trail, pair, Within(log, WindowStart(historySince, trail)))|
    ensures var first := Within(log, WindowStart(historySince, trail));
            var missed := AllMissed(trail, pair, first);
            var later := RecordAll(trail, missed[..k]);
            var from := WindowStart(historySince, later);
            AllMissed(later, pair, Within(log, from)) == missed[k..] <==> StillInWindow(missed, k, first, from)
  {
    var first := Within(log, WindowStart(historySince, trail));
    var missed := AllMissed(trail, pair, first);
    var from := WindowStart(historySince, RecordAll(trail, missed[..k]));
    WithinElements(log, WindowStart(historySince, trail));
    WindowMovesOn(historySince, trail, missed[..k]);
    WithinWithin(log, WindowStart(historySince, trail), from);
    if StillInWindow(missed, k, first, from) {
      RestRecovered(trail, pair, first, from, k);
    } else {
      var i, t :| k <= i < |missed| && t in Of(first, missed[i].txid) && t.ts < from;
      RestNotRecovered(trail, pair, first, from, k, i, t);
    }
  }

  lemma {:induction false} RestRecovered(trail: Trail, pair: Pair, first: seq<ExchangeTrade>, from: int, k: nat)
    requires Consistent(trail) && DistinctIds(first) && Positive(first)
    requires k <= |AllMissed(trail, pair, first)| && StillInWindow(AllMissed(trail, pair, first), k, first, from)
    ensures AllMissed(Later(trail, pair, first, k), pair, Within(first, from)) == AllMissed(trail, pair, first)[k..]
  {
    var missed, second, txids := AllMissed(trail, pair, first), Within(first, from), SortedTxids(first);
    var done, later := TxidsOf(missed[..k]), Later(trail, pair, first, k);
    forall x | x in txids
      ensures Owed(later, pair, x, Of(second, x)) == if x in done then None else Owed(trail, pair, x, Of(first, x))
    {
      OwedAgain(trail, pair, first, from, k, x);
    }
    MissedAgain(trail, later, pair, first, second, txids, done, k);
    PartListed(first, from);
    Unlisted(later, pair, second, txids, SortedTxids(second));
  }

  lemma {:induction false} PartListed(first: seq<ExchangeTrade>, from: int)
    requires DistinctIds(first)
    ensures forall x :: x in SortedTxids(Within(first, from)) ==> x in SortedTxids(first)
  {
    var second := Within(first, from);
    WithinElements(first, from);
    forall x | x in SortedTxids(second) ensures x in SortedTxids(first) {
      var t := Of(second, x)[0];
      OfElements(second, x, t);
      OfElements(first, x, t);
    }
  }

  lemma {:induction false} RestNotRecovered(trail: Trail, pair: Pair, first: seq<ExchangeTrade>, from: int, k: nat,
                                            i: nat, t: ExchangeTrade)
    requires Consistent(trail) && Positive(first) && k <= i < |AllMissed(trail, pair, first)|
    requires t in Of(first, AllMissed(trail, pair, first)[i].txid) && t.ts < from
    ensures AllMissed(Later(trail, pair, first, k), pair, Within(first, from)) != AllMissed(trail, pair, first)[k..]
  {
    var missed, second, later := AllMissed(trail, pair, first), Within(first, from), Later(trail, pair, first, k);
    RecordedPart(trail, pair, first, k, missed[i].txid);
    NotDone(trail, pair, first, k, i);
    CutOrder(first, from, missed[i].txid, t);
    WithinOrOlder(first, from, missed[i].txid);
    if AllMissed(later, pair, second) == missed[k..] {
      AllFit(later, pair, second);
      assert missed[k..][i - k] == missed[i];
      SameFit(trail, later, first, second, missed[i]);
    }
  }

  lemma AllFit(trail: Trail, pair: Pair, trades: seq<ExchangeTrade>)
    requires Consistent(trail)
    ensures var missed := AllMissed(trail, pair, trades);
            OncePerOrder(missed) && forall i :: 0 <= i < |missed| ==> Fits(trail, trades, missed[i])
  {
    MissedFit(trail, pair, trades, SortedTxids(trades));
  }

  lemma NotDone(trail: Trail, pair: Pair, first: seq<ExchangeTrade>, k: nat, i: nat)
    requires Consistent(trail) && k <= i < |AllMissed(trail, pair, first)|
    ensures var missed := AllMissed(trail, pair, first);
            missed[i].txid !in TxidsOf(missed[..k]) && Fits(trail, first, missed[i])
  {
    var missed := AllMissed(trail, pair, first);
    AllFit(trail, pair, first);
    forall j | 0 <= j < k ensures missed[..k][j].txid != missed[i].txid {
      assert missed[..k][j] == missed[j];
    }
  }

  lemma {:induction false} SameFit(trail: Trail, later: Trail, first: seq<ExchangeTrade>, second: seq<ExchangeTrade>,
                                   m: Missed)
    requires Fits(trail, first, m) && Fits(later, second, m)
    requires RecordedFor(later, m.txid) == RecordedFor(trail, m.txid)
    ensures TotalSize(Of(first, m.txid)) == TotalSize(Of(second, m.txid))
  {}

  /** What the books hold of an order once the first k recovered fills are recorded. */
  ghost function RecordedAfter(trail: Trail, pair: Pair, first: seq<ExchangeTrade>, k: nat, x: Txid): real
    requires k <= |AllMissed(trail, pair, first)|
  {
    if x in TxidsOf(AllMissed(trail, pair, first)[..k]) then TotalSize(Of(first, x)) else RecordedFor(trail, x)
  }

  /** The same for an exchange that executed more in between: after the second pass the books of an
      order are within the tolerance of everything it has executed by then if and only if what they
      lacked before it was in reach of the moved window, and they never hold more. */
  lemma {:induction false} SecondPassAfterGrowth(trail: Trail, pair: Pair, log: seq<ExchangeTrade>,
                                                 grown: seq<ExchangeTrade>, historySince: int,
                                                 first: seq<ExchangeTrade>, k: nat, later: Trail,
                                                 second: seq<ExchangeTrade>, x: Txid)
    requires Consistent(trail) && DistinctIds(grown) && Positive(grown) && log <= grown
    requires first == Within(log, WindowStart(historySince, trail)) && k <= |AllMissed(trail, pair, first)|
    requires later == RecordAll(trail, AllMissed(trail, pair, first)[..k])
    requires Answers(second, grown, Some(WindowStart(historySince, later)))
    requires RecordedFor(trail, x) <= TotalSize(Of(log, x))
    ensures var books := RecordedFor(RecordAll(later, AllMissed(later, pair, second)), x);
            FollowsFrom(TotalSize(Of(grown, x)), books, RecordedAfter(trail, pair, first, k, x),
                        TotalSize(Of(Older(grown, WindowStart(historySince, later)), x)))
  {
    RecordedPart(trail, pair, first, k, x);
    RecordedInGrown(trail, pair, log, grown, WindowStart(historySince, trail), k, x);
    PassOnGrown(later, pair, grown, second, WindowStart(historySince, later), x);
  }

  /** `books` is within the tolerance of what was executed if and only if what `recorded` lacked was
      in reach of a window that leaves out `older`; it is never more. */
  predicate FollowsFrom(executed: real, books: real, recorded: real, older: real) {
    (executed - books <= SIZE_TOLERANCE <==> Reachable(executed - recorded, older)) && books <= executed
  }

  lemma {:induction false} PassOnGrown(later: Trail, pair: Pair, grown: seq<ExchangeTrade>, second: seq<ExchangeTrade>,
                                       from: int, x: Txid)
    requires Consistent(later) && DistinctIds(grown) && Positive(grown) && Answers(second, grown, Some(from))
    requires RecordedFor(later, x) <= TotalSize(Of(grown, x))
    ensures var books := RecordedFor(RecordAll(later, AllMissed(later, pair, second)), x);
            FollowsFrom(TotalSize(Of(grown, x)), books, RecordedFor(later, x), TotalSize(Of(Older(grown, from), x)))
  {
    ReconciledWithinTolerance(later, pair, grown, second, from, x);
    NeverTooMuch(later, pair, grown, second, from, x);
  }

  /** Nothing recorded is more than the grown log holds. */
  lemma {:induction false} RecordedInGrown(trail: Trail, pair: Pair, log: seq<ExchangeTrade>, grown: seq<ExchangeTrade>,
                                           from: int, k: nat, x: Txid)
    requires Consistent(trail) && Positive(grown) && log <= grown
    requires k <= |AllMissed(trail, pair, Within(log, from))| && RecordedFor(trail, x) <= TotalSize(Of(log, x))
    ensures RecordedAfter(trail, pair, Within(log, from), k, x) <= TotalSize(Of(grown, x))
  {
    var rest := grown[|log|..];
    assert grown == log + rest;
    SizeOfConcat(log, rest, x);
    assert Positive(rest) by { assert forall t :: t in rest ==> t in grown; }
    SizeNotNegative(rest, x);
    assert Positive(log) by { assert forall t :: t in log ==> t in grown; }
    WithinOrOlder(log, from, x);
    OlderGrows(log, from, from, x);
  }

  lemma {:induction false} SizeNotNegative(trades: seq<ExchangeTrade>, x: Txid)
    requires Positive(trades)
    ensures TotalSize(Of(trades, x)) >= 0.0
  {
    if trades != [] {
      var init, t := trades[..|trades| - 1], trades[|trades| - 1];
      assert trades == init + [t];
      SizeOfAppend(init, t, x);
      SizeNotNegative(init, x);
    }
  }

  const EARLIER := ExchangeTrade(1, 8, 1000, Buy, 100.0, 1.0, 0.0, None)
  const LATER := ExchangeTrade(2, 7, 9000, Buy, 100.0, 1.0, 0.0, None)

  /** A flush in the middle of the list loses an order: of two recovered fills the one with the
      later trade is recorded, the next window starts behind the other, and nothing recovers it. */
  lemma PartialRecordLosesAnOrder()
    ensures var log, trail := [EARLIER, LATER], Trail(map[], []);
            var missed := AllMissed(trail, PAIR, Within(log, WindowStart(0, trail)));
            && |missed| == 2 && missed[0].txid == 7 && missed[1].txid == 8
            && var later := RecordAll(trail, missed[..1]);
               && AllMissed(later, PAIR, Within(log, WindowStart(0, later))) == []
               && RecordedFor(later, 8) == 0.0 && TotalSize(Of(log, 8)) == 1.0
  {
    var log, trail := [EARLIER, LATER], Trail(map[], []);
    assert WindowStart(0, trail) == -1000;
    WithinBoth(-1000);
    WithinBoth(8000);
    assert Within(log, WindowStart(0, trail)) == log;
    TwoMissed(trail);
    FirstOfTwo(trail, AllMissed(trail, PAIR, log));
  }

  lemma {:induction false} FirstOfTwo(trail: Trail, missed: seq<Missed>)
    requires trail == Trail(map[], []) && |missed| == 2 && missed[0].txid == 7 && missed[0].fill.ts == 9000
    requires Fits(trail, [EARLIER, LATER], missed[0])
    ensures var later := RecordAll(trail, missed[..1]);
            && WindowStart(0, later) == 8000 && RecordedFor(later, 8) == 0.0
            && AllMissed(later, PAIR, [LATER]) == []
    ensures TotalSize(Of([EARLIER, LATER], 8)) == 1.0
  {
    EarlierAndLater();
    assert missed[..1] == [missed[0]];
    FirstRecorded(trail, missed[0]);
  }

  lemma {:induction false} FirstRecorded(trail: Trail, m: Missed)
    requires trail == Trail(map[], []) && m.txid == 7 && m.fill.ts == 9000 && Fits(trail, [EARLIER, LATER], m)
    ensures var later := RecordAll(trail, [m]);
            && WindowStart(0, later) == 8000 && RecordedFor(later, 8) == 0.0
            && AllMissed(later, PAIR, [LATER]) == []
  {
    OneRow(trail, m);
    RecordOne(trail, [EARLIER, LATER], m, 7);
    RecordOne(trail, [EARLIER, LATER], m, 8);
    EarlierAndLater();
    OnlySeven(Record(trail, m));
  }

  lemma {:induction false} OneRow(trail: Trail, m: Missed)
    requires trail.rows == [] && m.fill.ts == 9000
    ensures RecordAll(trail, [m]) == Record(trail, m) && WindowStart(0, Record(trail, m)) == 8000
  {
    var row := RowOf(m.fill);
    assert [m][..0] == [];
    assert RecordAll(trail, [m]) == Record(RecordAll(trail, []), m);
    assert [] + [row] == [row];
    OnlyRow(row);
  }

  lemma OnlyRow(row: FillRow)
    ensures LastRecorded([row]) == Some(row.ts)
  {
    assert [row][..0] == [] && LastRecorded([]) == None;
  }

  lemma {:induction false} WithinBoth(from: int)
    requires from <= 9000
    ensures Within([EARLIER, LATER], from) == if from <= 1000 then [EARLIER, LATER] else [LATER]
  {
    assert [EARLIER, LATER][..1] == [EARLIER] && [EARLIER][..0] == [];
    assert Within([EARLIER], from) == if from <= 1000 then [EARLIER] else [];
  }

  lemma OnlySeven(trail: Trail)
    requires Consistent(trail) && RecordedFor(trail, 7) == 1.0
    ensures AllMissed(trail, PAIR, [LATER]) == []
  {
    SizeOfOne(LATER, 7);
    NothingMissed(trail, [LATER]);
  }

  lemma EarlierAndLater()
    ensures Of([EARLIER, LATER], 7) == [LATER] && Of([EARLIER, LATER], 8) == [EARLIER]
    ensures TotalSize([LATER]) == TotalSize([EARLIER]) == 1.0 && NewestTs([LATER]) == 9000
  {
    assert [EARLIER][..0] == [] && [LATER][..0] == [];
    assert Of([EARLIER], 7) == [] && Of([EARLIER], 8) == [EARLIER];
    OfAppend([EARLIER], LATER, 7);
    OfAppend([EARLIER], LATER, 8);
    assert [EARLIER] + [LATER] == [EARLIER, LATER];
  }

  lemma TwoMissed(trail: Trail)
    requires trail == Trail(map[], [])
    ensures var missed := AllMissed(trail, PAIR, [EARLIER, LATER]);
            |missed| == 2 && missed[0].txid == 7 && missed[1].txid == 8 && missed[0].fill.ts == 9000
            && Fits(trail, [EARLIER, LATER], missed[0])
  {
    var log := [EARLIER, LATER];
    EarlierAndLater();
    TwoTxids(log);
    OneOwed(trail, 7, LATER);
    OneOwed(trail, 8, EARLIER);
    TwoListed(trail, log);
    OwedFits(trail, PAIR, log, 7);
  }

  /** An unrecorded order of one trade owes a fill with that trade's time. */
  lemma OneOwed(trail: Trail, x: Txid, t: ExchangeTrade)
    requires trail == Trail(map[], []) && t.size == 1.0
    ensures Owed(trail, PAIR, x, [t]).Some? && Owed(trail, PAIR, x, [t]).value.ts == t.ts
  {
    assert [t][..0] == [] && TotalSize([t]) == 1.0;
    assert RecordedFor(trail, x) == 0.0;
  }

  lemma {:induction false} TwoListed(trail: Trail, log: seq<ExchangeTrade>)
    requires Owed(trail, PAIR, 7, Of(log, 7)).Some? && Owed(trail, PAIR, 8, Of(log, 8)).Some?
    ensures MissedOf(trail, PAIR, log, [7, 8])
         == [Missed(7, Owed(trail, PAIR, 7, Of(log, 7)).value), Missed(8, Owed(trail, PAIR, 8, Of(log, 8)).value)]
  {
    assert [7, 8][..1] == [7] && [7][..0] == [];
    MissedLast(trail, PAIR, log, [7]);
    MissedLast(trail, PAIR, log, [7, 8]);
  }

  lemma {:induction false} TwoTxids(log: seq<ExchangeTrade>)
    requires forall t :: t in log ==> t.txid == 7 || t.txid == 8
    requires Of(log, 7) != [] && Of(log, 8) != []
    ensures SortedTxids(log) == [7, 8]
  {
    var s := SortedTxids(log);
    forall x | x in s ensures x == 7 || x == 8 {
      OfElements(log, x, Of(log, x)[0]);
    }
    assert 7 in s && 8 in s;
    OnlyTwo(s);
  }

  lemma RisesBy(s: seq<Txid>, i: nat)
    requires Increasing(s) && i < |s|
    ensures s[0] + i <= s[i]
  {
    if i > 0 {
      RisesBy(s, i - 1);
      assert s[i - 1] < s[i];
    }
  }

  lemma OnlyTwo(s: seq<Txid>)
    requires Increasing(s) && 7 in s && 8 in s && forall x :: x in s ==> x == 7 || x == 8
    ensures s == [7, 8]
  {
    forall i | 0 <= i < |s| ensures s[i] == 7 || s[i] == 8 {
      assert s[i] in s;
    }
    assert forall i :: 0 <= i < |s| ==> s[i] in s;
    RisesBy(s, |s| - 1);
  }

  const PAIR := Pair("BTC", "EUR")
  const FIRST := ExchangeTrade(1, 7, 0, Buy, 100.0, 1.0, 0.0, None)
  const SECOND := ExchangeTrade(2, 7, 5000, Buy, 100.0, 0.6, 0.0, None)
  const PARTIAL := FillRow(Local(1), Buy, 100.0, 1.6, 0.0, 5000)
  const THIRD := ExchangeTrade(3, 7, 6000, Buy, 100.0, 0.4, 0.0, None)

  /** An order that executed over more than the margin is not recovered: its first two trades are
      one recorded fill stamped with the second, so the window leaves out the first, and the rest
      of the order is less than what is recorded. */
  lemma PartialWindowLosesSize()
    ensures var trail := Trail(map[7 := Local(1)], [PARTIAL]);
            var log, answer := [FIRST, SECOND, THIRD], [SECOND, THIRD];
            && Consistent(trail) && DistinctIds(log) && Answers(answer, log, Some(WindowStart(0, trail)))
            && TotalSize(Of(log, 7)) - RecordedFor(trail, 7) == 0.4
            && AllMissed(trail, PAIR, answer) == []
  {
    PartialSizes();
    PartialAnswer();
    NothingMissed(Trail(map[7 := Local(1)], [PARTIAL]), [SECOND, THIRD]);
  }

  lemma PartialAnswer()
    ensures DistinctIds([FIRST, SECOND, THIRD]) && Answers([SECOND, THIRD], [FIRST, SECOND, THIRD], Some(4000))
  {
    forall t ensures t in [SECOND, THIRD] <==> t in [FIRST, SECOND, THIRD] && AtOrAfter(t, Some(4000)) {
    }
  }

  lemma {:induction false} NothingMissed(trail: Trail, answer: seq<ExchangeTrade>)
    requires forall t :: t in answer ==> t.txid == 7
    requires Consistent(trail) && TotalSize(Of(answer, 7)) <= RecordedFor(trail, 7)
    ensures AllMissed(trail, PAIR, answer) == []
  {
    var missed := AllMissed(trail, PAIR, answer);
    MissedFit(trail, PAIR, answer, SortedTxids(answer));
    assert missed != [] ==> Fits(trail, answer, missed[0]) && Of(answer, missed[0].txid) != [];
    OfNone(answer, if missed == [] then 7 else missed[0].txid);
  }

  lemma PartialSizes()
    ensures TotalSize(Of([FIRST, SECOND, THIRD], 7)) == 2.0 && TotalSize(Of([SECOND, THIRD], 7)) == 1.0
    ensures Recorded([PARTIAL], Local(1)) == 1.6
  {
    assert [FIRST, SECOND, THIRD] == [FIRST] + ([SECOND] + [THIRD]) && [SECOND, THIRD] == [SECOND] + [THIRD];
    SizeOfConcat([SECOND], [THIRD], 7);
    SizeOfConcat([FIRST], [SECOND] + [THIRD], 7);
    SizeOfOne(FIRST, 7);
    SizeOfOne(SECOND, 7);
    SizeOfOne(THIRD, 7);
    RecordedGrows([], PARTIAL, Local(1));
    assert [] + [PARTIAL] == [PARTIAL];
  }

  // ----- the hand-over to the venue -----

  function CursorFrom(since: int, answer: seq<ExchangeTrade>): int {
    if answer == [] then since else NewestTs(answer)
  }

  /** A venue that has done nothing yet. */
  predicate Starts(w: World, cursor: int, seen: set<nat>) {
    && w.venue == VenueState(map[], [], map[], [], [], Some(cursor), seen)
    && w.emitted == [] && w.fills == [] && w.phase.Trading?
  }

  /** The log when it was fetched, at clock reading `asOf`, and everything executed since. */
  ghost predicate FetchedAt(ex: Exchange, n: nat, asOf: int) {
    && LogSound(ex) && n <= |ex.log| && asOf <= ex.clock
    && (forall t :: t in ex.log[..n] ==> t.ts <= asOf)
    && (forall t :: t in ex.log[n..] ==> asOf <= t.ts)
  }

  /** The cursor and ids a resumed run hands over satisfy what exactly-once delivery needs. */
  lemma ReconcileHandsOver(w: World, n: nat, asOf: int, since: int, answer: seq<ExchangeTrade>)
    requires FetchedAt(w.ex, n, asOf) && since <= asOf
    requires Answers(answer, w.ex.log[..n], Some(since - CURSOR_MARGIN_MS))
    requires Starts(w, CursorFrom(since, answer), Ids(answer))
    ensures Handover(w, n)
  {
    CursorInTime(w.ex, n, asOf, since, answer);
    forall t | t in w.ex.log[..n] ensures Behind(t, w.venue) {
      if t in answer {
        var i :| 0 <= i < |answer| && answer[i] == t;
        assert t.id in Ids(answer);
      }
    }
    IdsWithin(answer, w.ex.log[..n]);
    forall t | t in w.ex.log[n..] ensures t.id !in Ids(answer) {
      LaterId(w.ex.log, n, t);
    }
    assert Ids(w.ex.log[..n]) <= Ids(w.ex.log) by {
      IdsWithin(w.ex.log[..n], w.ex.log);
    }
  }

  lemma IdsWithin(a: seq<ExchangeTrade>, b: seq<ExchangeTrade>)
    requires forall t :: t in a ==> t in b
    ensures Ids(a) <= Ids(b)
  {
    forall id | id in Ids(a) ensures id in Ids(b) {
      var i :| 0 <= i < |a| && a[i].id == id;
      assert a[i] in a;
      var k :| 0 <= k < |b| && b[k] == a[i];
    }
  }

  lemma LaterId(log: seq<ExchangeTrade>, n: nat, t: ExchangeTrade)
    requires DistinctIds(log) && n <= |log| && t in log[n..]
    ensures t.id !in Ids(log[..n])
  {
    var j :| 0 <= j < |log[n..]| && log[n..][j] == t;
    forall i | 0 <= i < n ensures log[..n][i].id != t.id {
      assert log[i].id != log[n + j].id;
    }
  }

  lemma CursorInTime(ex: Exchange, n: nat, asOf: int, since: int, answer: seq<ExchangeTrade>)
    requires FetchedAt(ex, n, asOf) && since <= asOf
    requires Answers(answer, ex.log[..n], Some(since - CURSOR_MARGIN_MS))
    ensures CursorFrom(since, answer) <= asOf
    ensures forall t :: t in answer ==> t.ts <= CursorFrom(since, answer)
    ensures forall t :: t in ex.log[..n] && t !in answer ==> t.ts < CursorFrom(since, answer)
  {
    if answer != [] {
      var i :| 0 <= i < |answer| && answer[i].ts == NewestTs(answer);
      assert answer[i] in answer;
    }
  }

  /** A fresh run recovers no history: what is older than `now` stays out, the rest is its own. */
  lemma FreshRunHandsOver(w: World, n: nat, now: int)
    requires LogSound(w.ex) && n <= |w.ex.log| && now <= w.ex.clock && Starts(w, now, {})
    requires forall t :: t in w.ex.log[..n] ==> t.ts < now
    requires forall t :: t in w.ex.log[n..] ==> now <= t.ts
    ensures Handover(w, n)
  {}

  /** Across a crash: what was recorded, what reconciliation recovered and what the venue then
      reports add up to everything the exchange executed, order by order, up to the tolerance, if
      and only if what the books lacked was in reach of the window behind their newest fill. They
      never add up to more. */
  lemma BooksFollowTheExchange(trail: Trail, pair: Pair, w: World, n: nat, asOf: int, historySince: int,
                               answer: seq<ExchangeTrade>, events: seq<LiveProtocol.Event>, last: seq<ExchangeTrade>,
                               r: World, x: Txid)
    requires Consistent(trail) && FetchedAt(w.ex, n, asOf) && Since(historySince, trail) <= asOf
    requires Answers(answer, w.ex.log[..n], Some(WindowStart(historySince, trail)))
    requires Starts(w, CursorFrom(Since(historySince, trail), answer), Ids(answer))
    requires RunsToPoll(w, events, last, pair, r)
    ensures Accounts(trail, pair, w.ex.log[..n], answer, WindowStart(historySince, trail), x, r)
  {
    ExecutedSinceFetch(w, n, asOf, Since(historySince, trail), answer, pair, events, last, r, x);
    BooksAtFetch(trail, pair, w.ex, n, asOf, answer, WindowStart(historySince, trail), x, r);
  }

  /** A run from `w` whose last step, a successful poll, leads to `r`. */
  ghost predicate RunsToPoll(w: World, events: seq<LiveProtocol.Event>, last: seq<ExchangeTrade>, pair: Pair, r: World)
  {
    && Possible(w, events, pair) && Enabled(After(w, events, pair), Poll(Some(last)))
    && r == Next(After(w, events, pair), Poll(Some(last)), pair)
  }

  /** Of order `x`, the books after reconciliation and the fills `r` reported since follow what the
      exchange had executed of it in `r`. */
  ghost predicate Accounts(trail: Trail, pair: Pair, log: seq<ExchangeTrade>, answer: seq<ExchangeTrade>, from: int,
                           x: Txid, r: World)
  {
    var books := RecordedFor(RecordAll(trail, AllMissed(trail, pair, answer)), x);
    Follows(TotalSize(Of(r.ex.log, x)), books + FilledSize(r.fills, x), trail, log, from, x)
  }

  /** `accounted` is all of what was executed, up to the tolerance, if and only if what the books
      lacked of `log` was in reach of the window; it is never more. */
  ghost predicate Follows(executed: real, accounted: real, trail: Trail, log: seq<ExchangeTrade>, from: int, x: Txid) {
    var unrecorded := TotalSize(Of(log, x)) - RecordedFor(trail, x);
    && (executed - accounted <= SIZE_TOLERANCE <==> Reachable(unrecorded, TotalSize(Of(Older(log, from), x))))
    && (Positive(log) && unrecorded >= 0.0 ==> accounted <= executed)
  }

  lemma {:induction false} BooksAtFetch(trail: Trail, pair: Pair, ex: Exchange, n: nat, asOf: int,
                                        answer: seq<ExchangeTrade>, from: int, x: Txid, r: World)
    requires Consistent(trail) && FetchedAt(ex, n, asOf) && Answers(answer, ex.log[..n], Some(from))
    requires TotalSize(Of(r.ex.log, x)) == TotalSize(Of(ex.log[..n], x)) + FilledSize(r.fills, x)
    ensures Accounts(trail, pair, ex.log[..n], answer, from, x, r)
  {
    HeadDistinct(ex.log, n);
    BooksAfterCrash(trail, pair, ex.log[..n], answer, from, x, FilledSize(r.fills, x));
  }

  lemma {:induction false} BooksAfterCrash(trail: Trail, pair: Pair, log: seq<ExchangeTrade>,
                                           answer: seq<ExchangeTrade>, from: int, x: Txid, since: real)
    requires Consistent(trail) && DistinctIds(log) && Answers(answer, log, Some(from))
    ensures var books := RecordedFor(RecordAll(trail, AllMissed(trail, pair, answer)), x);
            Follows(TotalSize(Of(log, x)) + since, books + since, trail, log, from, x)
  {
    ReconciledWithinTolerance(trail, pair, log, answer, from, x);
    if Positive(log) && RecordedFor(trail, x) <= TotalSize(Of(log, x)) {
      NeverTooMuch(trail, pair, log, answer, from, x);
    }
  }

  lemma {:induction false} ExecutedSinceFetch(w: World, n: nat, asOf: int, since: int, answer: seq<ExchangeTrade>,
                                              pair: Pair, events: seq<LiveProtocol.Event>, last: seq<ExchangeTrade>,
                                              r: World, x: Txid)
    requires FetchedAt(w.ex, n, asOf) && since <= asOf
    requires Answers(answer, w.ex.log[..n], Some(since - CURSOR_MARGIN_MS))
    requires Starts(w, CursorFrom(since, answer), Ids(answer))
    requires RunsToPoll(w, events, last, pair, r)
    ensures TotalSize(Of(r.ex.log, x)) == TotalSize(Of(w.ex.log[..n], x)) + FilledSize(r.fills, x)
  {
    ReconcileHandsOver(w, n, asOf, since, answer);
    ExecutedSplits(w, n, pair, events, last, x);
  }

  /** Reconciliation records no more of an order than it executed. */
  lemma {:induction false} NeverTooMuch(trail: Trail, pair: Pair, log: seq<ExchangeTrade>, answer: seq<ExchangeTrade>,
                                        from: int, x: Txid)
    requires Consistent(trail) && DistinctIds(log) && Positive(log) && Answers(answer, log, Some(from))
    requires RecordedFor(trail, x) <= TotalSize(Of(log, x))
    ensures RecordedFor(RecordAll(trail, AllMissed(trail, pair, answer)), x) <= TotalSize(Of(log, x))
  {
    BooksAfterPass(trail, pair, log, answer, from, x);
    OlderGrows(log, from, from, x);
  }

  /** What the venue reported and what was logged before it add up to everything executed. */
  lemma {:induction false} ExecutedSplits(w: World, n: nat, pair: Pair, events: seq<LiveProtocol.Event>,
                                          last: seq<ExchangeTrade>, x: Txid)
    requires Handover(w, n) && Possible(w, events, pair) && Enabled(After(w, events, pair), Poll(Some(last)))
    ensures var r := Next(After(w, events, pair), Poll(Some(last)), pair);
            TotalSize(Of(r.ex.log, x)) == TotalSize(Of(w.ex.log[..n], x)) + FilledSize(r.fills, x)
  {
    PollCatchesUp(w, events, last, n, pair);
    HandoverStarts(w, n);
    RunKeeps(w, events, n, pair);
    SplitSize(w.ex.log, Next(After(w, events, pair), Poll(Some(last)), pair).ex.log, n, x);
  }

  lemma {:induction false} SplitSize(log: seq<ExchangeTrade>, grown: seq<ExchangeTrade>, n: nat, x: Txid)
    requires log <= grown && n <= |log|
    ensures TotalSize(Of(grown, x)) == TotalSize(Of(log[..n], x)) + TotalSize(Of(grown[n..], x))
  {
    assert grown == log[..n] + grown[n..];
    SizeOfConcat(log[..n], grown[n..], x);
  }

  lemma HeadDistinct(log: seq<ExchangeTrade>, n: nat)
    requires DistinctIds(log) && n <= |log|
    ensures DistinctIds(log[..n])
  {}

  // ----- the drift check -----

  function FillsOf(missed: seq<Missed>): seq<Fill> {
    if missed == [] then [] else FillsOf(missed[..|missed| - 1]) + [missed[|missed| - 1].fill]
  }

  /** Buys add their size, sells take it away, whatever the pair. */
  function SignedSizes(): Fill -> real {
    (f: Fill) => if f.side.Buy? then f.size else -f.size
  }

  /** The replayed position size with the recovered fills folded in. */
  method WithMissed(books: Books, pair: Pair, missed: seq<Missed>) returns (size: real)
    ensures size == PositionOf(books, pair).size + Sums.Total(FillsOf(missed), SignedSizes())
  {
    size := PositionOf(books, pair).size;
    for i := 0 to |missed|
      invariant size == PositionOf(books, pair).size + Sums.Total(FillsOf(missed[..i]), SignedSizes())
    {
      FoldOne(missed, i, SignedSizes());
      var f := missed[i].fill;
      size := size + (if f.side.Buy? then f.size else -f.size);
    }
    assert missed[..|missed|] == missed;
  }

  /** The quote cash with the recovered fills folded in. */
  method CarriedCash(books: Books, missed: seq<Missed>) returns (cash: real)
    ensures cash == books.cash + Sums.Total(FillsOf(missed), Resume.CashMoves())
  {
    cash := books.cash;
    for i := 0 to |missed|
      invariant cash == books.cash + Sums.Total(FillsOf(missed[..i]), Resume.CashMoves())
    {
      FoldOne(missed, i, Resume.CashMoves());
      cash := cash + CashDelta(missed[i].fill);
    }
    assert missed[..|missed|] == missed;
  }

  lemma FoldOne(missed: seq<Missed>, i: nat, amount: Fill -> real)
    requires i < |missed|
    ensures Sums.Total(FillsOf(missed[..i + 1]), amount)
        == Sums.Total(FillsOf(missed[..i]), amount) + amount(missed[i].fill)
  {
    assert missed[..i + 1][..i] == missed[..i];
    Sums.TotalAppend(FillsOf(missed[..i]), [missed[i].fill], amount);
    assert [missed[i].fill][1..] == [];
  }

  lemma {:induction false} FillsNotNegative(missed: seq<Missed>)
    requires forall i :: 0 <= i < |missed| ==> missed[i].fill.size >= 0.0
    ensures Resume.NotNegative(FillsOf(missed))
  {
    if missed != [] {
      FillsNotNegative(missed[..|missed| - 1]);
    }
  }

  lemma {:induction false} MissedPairs(trail: Trail, pair: Pair, trades: seq<ExchangeTrade>, txids: seq<Txid>)
    ensures forall i ::
        0 <= i < |MissedOf(trail, pair, trades, txids)| ==> MissedOf(trail, pair, trades, txids)[i].fill.pair == pair
  {
    if txids != [] {
      MissedPairs(trail, pair, trades, txids[..|txids| - 1]);
    }
  }

  lemma MissedFillsAre(trail: Trail, pair: Pair, trades: seq<ExchangeTrade>)
    requires Consistent(trail)
    ensures var missed := AllMissed(trail, pair, trades);
            && (forall i :: 0 <= i < |missed| ==> missed[i].fill.pair == pair)
            && Resume.NotNegative(FillsOf(missed))
  {
    var missed := AllMissed(trail, pair, trades);
    MissedPairs(trail, pair, trades, SortedTxids(trades));
    MissedFit(trail, pair, trades, SortedTxids(trades));
    assert forall i :: 0 <= i < |missed| ==> Fits(trail, trades, missed[i]);
    FillsNotNegative(missed);
  }

  lemma {:induction false} OnePair(missed: seq<Missed>, pair: Pair)
    requires forall i :: 0 <= i < |missed| ==> missed[i].fill.pair == pair
    ensures Sums.Total(FillsOf(missed), Resume.DeltaOn(pair)) == Sums.Total(FillsOf(missed), SignedSizes())
  {
    if missed != [] {
      var last := |missed| - 1;
      OnePair(missed[..last], pair);
      FoldOne(missed, last, Resume.DeltaOn(pair));
      FoldOne(missed, last, SignedSizes());
      assert missed[..last + 1] == missed;
    }
  }

  /** What the drift check compares with the account is exactly the ledger the run resumes with,
      whenever that ledger accepts the recovered fills. */
  lemma {:induction false} DriftSeesTheResumedLedger(books: Books, trail: Trail, pair: Pair, trades: seq<ExchangeTrade>)
    requires LongOnly(books) && Consistent(trail)
    requires ReplayFills(books, FillsOf(AllMissed(trail, pair, trades))).Success?
    ensures var fills := FillsOf(AllMissed(trail, pair, trades));
            var resumed := ReplayFills(books, fills).value;
            && PositionOf(resumed, pair).size == PositionOf(books, pair).size + Sums.Total(fills, SignedSizes())
            && resumed.cash == books.cash + Sums.Total(fills, Resume.CashMoves())
  {
    MissedFillsAre(trail, pair, trades);
    Resume.ReplayTotals(books, FillsOf(AllMissed(trail, pair, trades)));
    OnePair(AllMissed(trail, pair, trades), pair);
  }

  /** Why a live run refuses to start. */
  datatype Refusal = NoBalances | Drift(base: real, quote: real)

  datatype Reconciled = Reconciled(missed: seq<Missed>, cursor: int, seen: set<nat>)

  function Balance(balances: map<string, real>, asset: string): real {
    if asset in balances then balances[asset] else 0.0
  }

  /** The quote balance the books imply: the chain's baseline plus its recorded cash movement. */
  function ExpectedQuote(baseline: Option<real>, startingCash: Option<real>, cash: real): Option<real> {
    if baseline.Some? && startingCash.Some? then Some(baseline.value + (cash - startingCash.value)) else None
  }

  /** Within dust: the base always, the quote only when it is comparable. */
  predicate Agrees(balances: map<string, real>, pair: Pair, size: real, checkQuote: bool, expected: Option<real>) {
    && Abs(Balance(balances, pair.base) - size) <= BASE_TOLERANCE
    && (checkQuote && expected.Some? ==> Abs(Balance(balances, pair.quote) - expected.value) <= QUOTE_TOLERANCE)
  }

  /** The account agrees with the books once `fills` are folded in. */
  ghost predicate MayStart(books: Books, fills: seq<Fill>, balances: map<string, real>, pair: Pair, checkQuote: bool,
                           baseline: Option<real>, startingCash: Option<real>)
  {
    Agrees(balances, pair, PositionOf(books, pair).size + Sums.Total(fills, SignedSizes()), checkQuote,
           ExpectedQuote(baseline, startingCash, books.cash + Sums.Total(fills, Resume.CashMoves())))
  }

  /** How much more than the books the account holds: base, and quote against what is expected of it
      or against the ledger's cash when nothing is. */
  ghost predicate DriftIs(refusal: Refusal, books: Books, fills: seq<Fill>, balances: map<string, real>, pair: Pair,
                          baseline: Option<real>, startingCash: Option<real>)
  {
    var cash := books.cash + Sums.Total(fills, Resume.CashMoves());
    refusal == Drift(Balance(balances, pair.base) - PositionOf(books, pair).size - Sums.Total(fills, SignedSizes()),
                     Balance(balances, pair.quote) - ExpectedQuote(baseline, startingCash, cash).GetOr(cash))
  }

  ghost predicate Outcome(r: Reconciled, trail: Trail, pair: Pair, historySince: Option<int>, now: int,
                          answer: seq<ExchangeTrade>)
  {
    if historySince.None? then r == Reconciled([], now, {})
    else r == Reconciled(AllMissed(trail, pair, answer),
                         CursorFrom(Since(historySince.value, trail), answer), Ids(answer))
  }

  /** Bring the books and the exchange into agreement, or refuse to start: the run starts exactly
      when the account agrees with the ledger after the recovered fills. */
  method ReconcileLive(trail: Trail, books: Books, pair: Pair, historySince: Option<int>, now: int,
                        answer: seq<ExchangeTrade>, balances: Option<map<string, real>>, checkQuote: bool,
                       baseline: Option<real>, startingCash: Option<real>)
    returns (r: Result<Reconciled, Refusal>)
    requires Consistent(trail)
    ensures r.Success? ==> Outcome(r.value, trail, pair, historySince, now, answer)
    ensures var fills := if historySince.None? then [] else FillsOf(AllMissed(trail, pair, answer));
            r.Success? <==>
                balances.Some? && MayStart(books, fills, balances.value, pair, checkQuote, baseline, startingCash)
    ensures r.Failure? && r.error.NoBalances? <==> balances.None?
    ensures var fills := if historySince.None? then [] else FillsOf(AllMissed(trail, pair, answer));
            r.Failure? && balances.Some? ==>
              DriftIs(r.error, books, fills, balances.value, pair, baseline, startingCash)
  {
    var found := Recover(trail, pair, historySince, now, answer);
    if balances.None? {
      return Failure(NoBalances);
    }
    var drift := CheckDrift(books, found.missed, balances.value, pair, checkQuote, baseline, startingCash);
    if drift.Some? {
      return Failure(drift.value);
    }
    r := Success(found);
  }

  /** Recover the missed fills and the cursor; a fresh run recovers no history. */
  method Recover(trail: Trail, pair: Pair, historySince: Option<int>, now: int,
                 answer: seq<ExchangeTrade>) returns (r: Reconciled)
    requires Consistent(trail)
    ensures Outcome(r, trail, pair, historySince, now, answer)
  {
    if historySince.None? {
      return Reconciled([], now, {});
    }
    var missed := RecoverMissed(trail, pair, answer);
    r := Reconciled(missed, CursorFrom(Since(historySince.value, trail), answer), Ids(answer));
  }

  /** Accept dust, refuse anything larger. */
  method CheckDrift(books: Books, missed: seq<Missed>, balances: map<string, real>, pair: Pair, checkQuote: bool,
                    baseline: Option<real>, startingCash: Option<real>) returns (refusal: Option<Refusal>)
    ensures refusal.None? <==> MayStart(books, FillsOf(missed), balances, pair, checkQuote, baseline, startingCash)
    ensures refusal.Some? ==>
        DriftIs(refusal.value, books, FillsOf(missed), balances, pair, baseline, startingCash)
  {
    var size := WithMissed(books, pair, missed);
    var cash := CarriedCash(books, missed);
    var expected := ExpectedQuote(baseline, startingCash, cash);
    if Agrees(balances, pair, size, checkQuote, expected) {
      return None;
    }
    refusal := Some(Drift(Balance(balances, pair.base) - size, Balance(balances, pair.quote) - expected.GetOr(cash)));
  }
}
