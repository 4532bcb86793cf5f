/** Position and cash of a live run against the exchange log: sides and money, not only sizes
    (kaupo/venues/kraken_live.py, kaupo/core/live_reconcile.py). */
module LiveBooks {
  import opened Domain
  import opened Accounting
  import opened ExchangeTrades
  import opened KrakenVenue
  import opened LiveProtocol
  import opened LiveReconcile
  import Resume

  // ----- what trades are worth -----

  /** Bought counts up, sold counts down. */
  function SignedSize(t: ExchangeTrade): real {
    if t.side.Buy? then t.size else -t.size
  }

  /** What a trade does to quote cash, its fee included. */
  function Money(t: ExchangeTrade): real {
    if t.side.Buy? then -(t.price * t.size) - t.fee else t.price * t.size - t.fee
  }

  function SignedTotal(trades: seq<ExchangeTrade>): real {
    if trades == [] then 0.0 else SignedTotal(trades[..|trades| - 1]) + SignedSize(trades[|trades| - 1])
  }

  function MoneyTotal(trades: seq<ExchangeTrade>): real {
    if trades == [] then 0.0 else MoneyTotal(trades[..|trades| - 1]) + Money(trades[|trades| - 1])
  }

  /** Trades of one order are all on its side. */
  ghost predicate OneSided(trades: seq<ExchangeTrade>) {
    forall t, u :: t in trades && u in trades && t.txid == u.txid ==> t.side == u.side
  }

  /** An exchange log as exchanges keep them: no empty trade, one side per order. */
  ghost predicate Proper(trades: seq<ExchangeTrade>) {
    Positive(trades) && OneSided(trades)
  }

  lemma {:induction false} OneSideTotals(trades: seq<ExchangeTrade>, side: Side)
    requires forall t :: t in trades ==> t.side == side
    ensures SignedTotal(trades) == if side.Buy? then TotalSize(trades) else -TotalSize(trades)
    ensures MoneyTotal(trades)
         == (if side.Buy? then -TotalNotional(trades) else TotalNotional(trades)) - TotalFee(trades)
  {
    if trades != [] {
      var init, t := trades[..|trades| - 1], trades[|trades| - 1];
      assert trades == init + [t] && t in trades;
      assert forall u :: u in init ==> u in trades;
      OneSideTotals(init, side);
      assert Notional(t.price, t.size) == t.price * t.size;
    }
  }

  lemma {:induction false} PositiveTotal(trades: seq<ExchangeTrade>)
    requires Positive(trades)
    ensures TotalSize(trades) >= 0.0 && (trades != [] ==> TotalSize(trades) > 0.0)
  {
    if trades != [] {
      var init, t := trades[..|trades| - 1], trades[|trades| - 1];
      assert trades == init + [t] && t in trades;
      assert forall u :: u in init ==> u in trades;
      PositiveTotal(init);
    }
  }

  /** The fill of an order: on its side, stamped with its newest trade, and doing to position and cash
      exactly what its trades did, fees included. */
  lemma {:induction false} AggregateIsItsTrades(orderId: OrderId, pair: Pair, trades: seq<ExchangeTrade>)
    requires trades != [] && Positive(trades) && forall t :: t in trades ==> t.side == trades[0].side
    ensures var f := Aggregate(orderId, pair, trades);
            && f.orderId == orderId && f.pair == pair && f.side == trades[0].side
            && (forall t :: t in trades ==> t.ts <= f.ts) && (exists t :: t in trades && t.ts == f.ts)
            && Delta(f, pair) == SignedTotal(trades) && CashDelta(f) == MoneyTotal(trades)
  {
    AggregateMoves(orderId, pair, trades);
    var i :| 0 <= i < |trades| && trades[i].ts == NewestTs(trades);
    assert trades[i] in trades;
  }

  lemma {:induction false} AggregateMoves(orderId: OrderId, pair: Pair, trades: seq<ExchangeTrade>)
    requires trades != [] && Positive(trades) && forall t :: t in trades ==> t.side == trades[0].side
    ensures Delta(Aggregate(orderId, pair, trades), pair) == SignedTotal(trades)
    ensures CashDelta(Aggregate(orderId, pair, trades)) == MoneyTotal(trades)
  {
    var f := Aggregate(orderId, pair, trades);
    PositiveTotal(trades);
    AverageWorth(TotalNotional(trades), TotalSize(trades));
    OneSideTotals(trades, trades[0].side);
    CashOf(f, TotalNotional(trades));
  }

  lemma CashOf(f: Fill, notional: real)
    requires Notional(f.price, f.size) == notional
    ensures CashDelta(f) == (if f.side.Buy? then -notional else notional) - f.fee
  {}

  // ----- one poll -----

  /** What the fills of one exchange order add up to. */
  ghost function FilledAmount(fills: seq<OrderFill>, x: Txid, amount: Fill -> real): real {
    if fills == [] then 0.0
    else
      var f := fills[|fills| - 1];
      FilledAmount(fills[..|fills| - 1], x, amount) + (if f.txid == x then amount(f.fill) else 0.0)
  }

  lemma {:induction false} FilledJoins(a: seq<OrderFill>, b: seq<OrderFill>, x: Txid, amount: Fill -> real)
    ensures FilledAmount(a + b, x, amount) == FilledAmount(a, x, amount) + FilledAmount(b, x, amount)
  {
    if b == [] {
      assert a + b == a;
    } else {
      assert (a + b)[..|a + b| - 1] == a + b[..|b| - 1];
      FilledJoins(a, b[..|b| - 1], x, amount);
    }
  }

  lemma {:induction false} TaggedAmount(txids: seq<Txid>, fills: seq<Fill>, x: Txid, amount: Fill -> real,
                                        of: Txid -> real)
    requires |txids| == |fills| && Distinct(txids)
    requires forall i :: 0 <= i < |txids| ==> amount(fills[i]) == of(txids[i])
    ensures FilledAmount(Tagged(txids, fills), x, amount) == if x in txids then of(x) else 0.0
  {
    if txids != [] {
      var last := |txids| - 1;
      assert Tagged(txids, fills)[..last] == Tagged(txids[..last], fills[..last]);
      TaggedAmount(txids[..last], fills[..last], x, amount, of);
      assert txids == txids[..last] + [txids[last]];
    }
  }

  /** Each fill of a poll aggregates its order's trades. */
  ghost predicate IsAggregate(f: Fill, pair: Pair, group: seq<ExchangeTrade>)
    requires group != []
  {
    exists id :: f == Aggregate(id, pair, group)
  }

  lemma {:induction false} GroupsAggregate(st: VenueState, pair: Pair, trades: seq<ExchangeTrade>, txids: seq<Txid>)
    requires forall x :: x in txids ==> Of(trades, x) != []
    ensures forall i :: 0 <= i < |txids| ==>
              IsAggregate(FillGroups(st, pair, trades, txids).fills[i], pair, Of(trades, txids[i]))
  {
    if txids != [] {
      var last := |txids| - 1;
      GroupsAggregate(st, pair, trades, txids[..last]);
      var before := FillGroups(st, pair, trades, txids[..last]);
      var group := Of(trades, txids[last]);
      var f := GroupFill(before.state, pair, txids[last], group);
      var id := if txids[last] in before.state.byTxid then before.state.byTxid[txids[last]]
                else Unattributed(txids[last]);
      assert f == Aggregate(id, pair, group);
      assert IsAggregate(f, pair, group);
      assert FillGroups(st, pair, trades, txids).fills == before.fills + [f];
    }
  }

  lemma {:induction false} ProperOrder(trades: seq<ExchangeTrade>, x: Txid)
    requires Proper(trades)
    ensures Positive(Of(trades, x)) && forall t :: t in Of(trades, x) ==> t.side == Of(trades, x)[0].side
  {
    forall t ensures t in Of(trades, x) <==> t in trades && t.txid == x {
      OfElements(trades, x, t);
    }
    if Of(trades, x) != [] {
      assert Of(trades, x)[0] in Of(trades, x);
    }
  }

  lemma {:induction false} PollAmounts(st: VenueState, pair: Pair, unread: seq<ExchangeTrade>, x: Txid)
    requires Proper(unread)
    ensures var fills := Tagged(Txids(unread), FillsFrom(st, pair, unread).fills);
            && FilledAmount(fills, x, Resume.DeltaOn(pair)) == SignedTotal(Of(unread, x))
            && FilledAmount(fills, x, Resume.CashMoves()) == MoneyTotal(Of(unread, x))
  {
    var txids, fills := Txids(unread), FillsFrom(st, pair, unread).fills;
    TxidsAre(unread);
    GroupsAggregate(st, pair, unread, txids);
    forall i | 0 <= i < |txids|
      ensures Resume.DeltaOn(pair)(fills[i]) == SignedTotal(Of(unread, txids[i]))
      ensures Resume.CashMoves()(fills[i]) == MoneyTotal(Of(unread, txids[i]))
    {
      assert txids[i] in txids;
      assert IsAggregate(fills[i], pair, Of(unread, txids[i]));
      var id :| fills[i] == Aggregate(id, pair, Of(unread, txids[i]));
      ProperOrder(unread, txids[i]);
      AggregateIsItsTrades(id, pair, Of(unread, txids[i]));
    }
    TaggedAmount(txids, fills, x, Resume.DeltaOn(pair), (y: Txid) => SignedTotal(Of(unread, y)));
    TaggedAmount(txids, fills, x, Resume.CashMoves(), (y: Txid) => MoneyTotal(Of(unread, y)));
  }

  // ----- every run -----

  /** Order by order, the fills so far move position and cash as the emitted trades did. */
  ghost predicate MoneySound(w: World, pair: Pair) {
    forall x :: && FilledAmount(w.fills, x, Resume.DeltaOn(pair)) == SignedTotal(Of(w.emitted, x))
                && FilledAmount(w.fills, x, Resume.CashMoves()) == MoneyTotal(Of(w.emitted, x))
  }

  lemma {:induction false} SignedConcat(a: seq<ExchangeTrade>, b: seq<ExchangeTrade>)
    ensures SignedTotal(a + b) == SignedTotal(a) + SignedTotal(b) && MoneyTotal(a + b) == MoneyTotal(a) + MoneyTotal(b)
  {
    if b == [] {
      assert a + b == a;
    } else {
      assert (a + b)[..|a + b| - 1] == a + b[..|b| - 1];
      SignedConcat(a, b[..|b| - 1]);
    }
  }

  lemma PollMoney(w: World, answer: Option<seq<ExchangeTrade>>, pair: Pair)
    requires Enabled(w, Poll(answer)) && MoneySound(w, pair) && Proper(w.ex.log)
    ensures MoneySound(Polled(w, pair, answer), pair)
  {
    var unread := Unread(answer, w.venue.seen);
    UnreadLogged(w, answer);
    var c := Moved(Cursor(w.venue.cursor, w.venue.seen), unread);
    var st := w.venue.(cursor := c.at, seen := c.seen);
    var added := Tagged(Txids(unread), FillsFrom(st, pair, unread).fills);
    forall x ensures && FilledAmount(w.fills + added, x, Resume.DeltaOn(pair)) == SignedTotal(Of(w.emitted + unread, x))
                     && FilledAmount(w.fills + added, x, Resume.CashMoves()) == MoneyTotal(Of(w.emitted + unread, x))
    {
      PollAmounts(st, pair, unread, x);
      FilledJoins(w.fills, added, x, Resume.DeltaOn(pair));
      FilledJoins(w.fills, added, x, Resume.CashMoves());
      OfConcat(w.emitted, unread, x);
      SignedConcat(Of(w.emitted, x), Of(unread, x));
    }
  }

  lemma UnreadLogged(w: World, answer: Option<seq<ExchangeTrade>>)
    requires Enabled(w, Poll(answer)) && Proper(w.ex.log)
    ensures Proper(Unread(answer, w.venue.seen))
  {
    if answer.Some? {
      forall t | t in Unread(answer, w.venue.seen) ensures t in w.ex.log {
        UnseenElements(answer.value, w.venue.seen, t);
      }
    }
  }

  lemma StepMoney(w: World, e: LiveProtocol.Event, pair: Pair)
    requires Enabled(w, e) && MoneySound(w, pair) && Proper(w.ex.log)
    ensures MoneySound(Next(w, e, pair), pair)
  {
    match e
    case Poll(answer) => PollMoney(w, answer, pair);
    case _ =>
  }

  lemma ProperPrefix(log: seq<ExchangeTrade>, grown: seq<ExchangeTrade>)
    requires log <= grown && Proper(grown)
    ensures Proper(log)
  {
    assert forall t :: t in log ==> t in grown by {
      forall t | t in log ensures t in grown {
        var i :| 0 <= i < |log| && log[i] == t;
        assert grown[i] == t;
      }
    }
  }

  lemma {:induction false} RunMoney(w: World, events: seq<LiveProtocol.Event>, n: nat, pair: Pair)
    requires LiveProtocol.Invariant(w, n) && Possible(w, events, pair) && MoneySound(w, pair)
    requires Proper(After(w, events, pair).ex.log)
    ensures MoneySound(After(w, events, pair), pair)
    decreases |events|
  {
    if events != [] {
      RunKeeps(w, events, n, pair);
      ProperPrefix(w.ex.log, After(w, events, pair).ex.log);
      StepKeeps(w, events[0], n, pair);
      StepMoney(w, events[0], pair);
      RunMoney(Next(w, events[0], pair), events[1..], n, pair);
    }
  }

  // ----- the same trades in another order -----

  function SignedOf(t: ExchangeTrade, x: Txid): real {
    if t.txid == x then SignedSize(t) else 0.0
  }

  function MoneyOf(t: ExchangeTrade, x: Txid): real {
    if t.txid == x then Money(t) else 0.0
  }

  lemma {:induction false} OneOf(t: ExchangeTrade, x: Txid)
    ensures SignedTotal(Of([t], x)) == SignedOf(t, x) && MoneyTotal(Of([t], x)) == MoneyOf(t, x)
  {
    assert [t][..0] == [];
    assert Of([t], x) == if t.txid == x then [t] else [];
  }

  lemma {:induction false} OfSplits(a: seq<ExchangeTrade>, b: seq<ExchangeTrade>, x: Txid)
    ensures SignedTotal(Of(a + b, x)) == SignedTotal(Of(a, x)) + SignedTotal(Of(b, x))
    ensures MoneyTotal(Of(a + b, x)) == MoneyTotal(Of(a, x)) + MoneyTotal(Of(b, x))
  {
    OfConcat(a, b, x);
    SignedConcat(Of(a, x), Of(b, x));
  }

  lemma TakeOut(b: seq<ExchangeTrade>, k: nat, x: Txid)
    requires k < |b|
    ensures var rest := b[..k] + b[k + 1..];
            && SignedTotal(Of(b, x)) == SignedTotal(Of(rest, x)) + SignedOf(b[k], x)
            && MoneyTotal(Of(b, x)) == MoneyTotal(Of(rest, x)) + MoneyOf(b[k], x)
  {
    assert b == b[..k] + ([b[k]] + b[k + 1..]);
    OfSplits(b[..k], [b[k]] + b[k + 1..], x);
    OfSplits([b[k]], b[k + 1..], x);
    OfSplits(b[..k], b[k + 1..], x);
    OneOf(b[k], x);
  }

  lemma {:induction false} SameTradesSameMoney(a: seq<ExchangeTrade>, b: seq<ExchangeTrade>, x: Txid)
    requires DistinctIds(a) && DistinctIds(b) && forall t :: t in a <==> t in b
    ensures SignedTotal(Of(a, x)) == SignedTotal(Of(b, x)) && MoneyTotal(Of(a, x)) == MoneyTotal(Of(b, x))
    decreases |a|
  {
    if a == [] {
      NoTrades(b);
    } else {
      var last := |a| - 1;
      assert a[last] in a;
      var k :| 0 <= k < |b| && b[k] == a[last];
      RestOf(a, b, k);
      SameTradesSameMoney(a[..last], b[..k] + b[k + 1..], x);
      TakeOut(b, k, x);
      TakeOut(a, last, x);
      assert a[..last] + a[last + 1..] == a[..last];
    }
  }

  /** After a successful poll the fills of every exchange order have moved position and cash by
      exactly what it executed since the hand-over: sides, prices and fees included. */
  lemma {:induction false} PollFollowsMoney(w: World, events: seq<LiveProtocol.Event>, answer: seq<ExchangeTrade>,
                                            n: nat, pair: Pair)
    requires Handover(w, n) && Possible(w, events, pair) && Enabled(After(w, events, pair), Poll(Some(answer)))
    requires Proper(After(w, events, pair).ex.log)
    ensures var r := Next(After(w, events, pair), Poll(Some(answer)), pair);
            && n <= |r.ex.log|
            && forall x ::
                 && FilledAmount(r.fills, x, Resume.DeltaOn(pair)) == SignedTotal(Of(r.ex.log[n..], x))
                 && FilledAmount(r.fills, x, Resume.CashMoves()) == MoneyTotal(Of(r.ex.log[n..], x))
  {
    HandoverStarts(w, n);
    NothingFilled(w, n, pair);
    RunMoney(w, events, n, pair);
    var before := After(w, events, pair);
    var r := Next(before, Poll(Some(answer)), pair);
    PollMoney(before, Some(answer), pair);
    RunKeeps(w, events, n, pair);
    PollKeeps(before, Some(answer), n, pair);
    EmittedDistinct(before, answer, n);
    TailDistinct(r.ex.log, n);
    forall x ensures && SignedTotal(Of(r.emitted, x)) == SignedTotal(Of(r.ex.log[n..], x))
                     && MoneyTotal(Of(r.emitted, x)) == MoneyTotal(Of(r.ex.log[n..], x))
    {
      SameTradesSameMoney(r.emitted, r.ex.log[n..], x);
    }
  }

  lemma NothingFilled(w: World, n: nat, pair: Pair)
    requires Handover(w, n)
    ensures MoneySound(w, pair)
  {
    assert w.fills == [] && w.emitted == [];
  }

  // ----- the books -----

  function Signed(side: Side, size: real): real {
    if side.Buy? then size else -size
  }

  /** What a recorded row does to the position and to quote cash. */
  function RowDelta(row: FillRow): real {
    Signed(row.side, row.size)
  }

  function RowCash(row: FillRow): real {
    if row.side.Buy? then -(row.price * row.size) - row.fee else row.price * row.size - row.fee
  }

  function BooksDelta(rows: seq<FillRow>, id: OrderId): real {
    if rows == [] then 0.0
    else
      var last := rows[|rows| - 1];
      BooksDelta(rows[..|rows| - 1], id) + (if last.orderId == id then RowDelta(last) else 0.0)
  }

  function BooksCash(rows: seq<FillRow>, id: OrderId): real {
    if rows == [] then 0.0
    else
      var last := rows[|rows| - 1];
      BooksCash(rows[..|rows| - 1], id) + (if last.orderId == id then RowCash(last) else 0.0)
  }

  lemma {:induction false} RowsGrow(rows: seq<FillRow>, row: FillRow, id: OrderId)
    ensures BooksDelta(rows + [row], id) == BooksDelta(rows, id) + (if row.orderId == id then RowDelta(row) else 0.0)
    ensures BooksCash(rows + [row], id) == BooksCash(rows, id) + (if row.orderId == id then RowCash(row) else 0.0)
  {
    assert (rows + [row])[..|rows|] == rows;
  }

  lemma RowIsFill(f: Fill)
    ensures RowDelta(RowOf(f)) == Delta(f, f.pair) && RowCash(RowOf(f)) == CashDelta(f)
  {}

  lemma OneTarget(trail: Trail, x: Txid, y: Txid)
    requires Consistent(trail) && Target(trail, x) == Target(trail, y)
    ensures x == y
  {}

  /** The recovered fill of order x, if there is one. */
  ghost predicate Recovers(missed: seq<Missed>, x: Txid, f: Fill) {
    exists i :: 0 <= i < |missed| && missed[i].txid == x && missed[i].fill == f
  }

  lemma {:induction false} RecordedRows(trail: Trail, missed: seq<Missed>)
    requires missed != []
    ensures var last := missed[|missed| - 1];
            RecordAll(trail, missed).rows == RecordAll(trail, missed[..|missed| - 1]).rows + [RowOf(last.fill)]
  {}

  /** Recording recovered fills adds to an order's books what its own fill moves, and nothing else. */
  lemma {:induction false} RecordedMoves(trail: Trail, trades: seq<ExchangeTrade>, missed: seq<Missed>, x: Txid)
    requires Consistent(trail) && OncePerOrder(missed)
    requires forall i :: 0 <= i < |missed| ==> Fits(trail, trades, missed[i])
    ensures var id, after := Target(trail, x), RecordAll(trail, missed).rows;
            && (x !in TxidsOf(missed) ==>
                  && BooksDelta(after, id) == BooksDelta(trail.rows, id)
                  && BooksCash(after, id) == BooksCash(trail.rows, id))
            && (forall f :: Recovers(missed, x, f) ==>
                  && BooksDelta(after, id) == BooksDelta(trail.rows, id) + Delta(f, f.pair)
                  && BooksCash(after, id) == BooksCash(trail.rows, id) + CashDelta(f))
  {
    if missed != [] {
      var init, m := missed[..|missed| - 1], missed[|missed| - 1];
      assert forall i :: 0 <= i < |init| ==> init[i] == missed[i];
      RecordedMoves(trail, trades, init, x);
      RecordedRows(trail, missed);
      RowsGrow(RecordAll(trail, init).rows, RowOf(m.fill), Target(trail, x));
      RowIsFill(m.fill);
      MovesOn(trail, trades, missed, x);
    }
  }

  /** Whether the last recovered fill is the order's own. */
  lemma MovesOn(trail: Trail, trades: seq<ExchangeTrade>, missed: seq<Missed>, x: Txid)
    requires Consistent(trail) && OncePerOrder(missed) && missed != []
    requires forall i :: 0 <= i < |missed| ==> Fits(trail, trades, missed[i])
    ensures var init, m := missed[..|missed| - 1], missed[|missed| - 1];
            && (m.fill.orderId == Target(trail, x) <==> m.txid == x)
            && (x !in TxidsOf(missed) ==> x !in TxidsOf(init) && m.txid != x)
            && (m.txid == x ==> x !in TxidsOf(init) && forall f :: Recovers(missed, x, f) ==> f == m.fill)
            && (m.txid != x ==> forall f :: Recovers(missed, x, f) ==> Recovers(init, x, f))
  {
    var init, m := missed[..|missed| - 1], missed[|missed| - 1];
    assert Fits(trail, trades, m);
    if Target(trail, m.txid) == Target(trail, x) {
      OneTarget(trail, m.txid, x);
    }
    forall i | 0 <= i < |init| ensures init[i] == missed[i] && init[i].txid != m.txid {
    }
    if x !in TxidsOf(missed) {
      forall i | 0 <= i < |init| ensures init[i].txid != x {
        assert missed[i].txid in TxidsOf(missed);
      }
      assert m.txid in TxidsOf(missed);
    }
    forall f | Recovers(missed, x, f) && m.txid != x ensures Recovers(init, x, f) {
      var i :| 0 <= i < |missed| && missed[i].txid == x && missed[i].fill == f;
      assert init[i].txid == x && init[i].fill == f;
    }
  }

  lemma ShareOfMoney(money: real, notional: real, fee: real, price: real, part: real, total: real, side: Side)
    requires total > 0.0 && price * total == notional
    requires money == (if side.Buy? then -notional else notional) - fee
    ensures (if side.Buy? then -(price * part) else price * part) - Share(fee, part, total) == Share(money, part, total)
  {
    var r := part / total;
    assert r * total == part by { CancelDivision(part, total); }
    assert price * part == notional * r by {
      assert price * (total * r) == (price * total) * r;
    }
    Distribute(notional, fee, r);
    Distribute(-notional, fee, r);
    assert (-notional) * r == -(notional * r);
  }

  /** What an order still owes: its average price, its fee pro rata. */
  lemma {:induction false} OwedIs(trail: Trail, pair: Pair, trades: seq<ExchangeTrade>, x: Txid)
    requires Consistent(trail) && Owed(trail, pair, x, Of(trades, x)).Some?
    ensures var f, group := Owed(trail, pair, x, Of(trades, x)).value, Of(trades, x);
            && group != [] && TotalSize(group) > 0.0 && f.side == group[0].side && f.pair == pair
            && f.size == TotalSize(group) - RecordedFor(trail, x)
            && f.price == Aggregate(Target(trail, x), pair, group).price
            && f.fee == Share(TotalFee(group), f.size, TotalSize(group))
  {
    var group := Of(trades, x);
    RecordedNotNegative(trail.rows, Target(trail, x));
    OwedFits(trail, pair, trades, x);
    assert Aggregate(Target(trail, x), pair, group).size == TotalSize(group);
    WholeShare(TotalFee(group), TotalSize(group));
  }

  lemma {:induction false} AveragePrice(orderId: OrderId, pair: Pair, group: seq<ExchangeTrade>)
    requires group != [] && TotalSize(group) > 0.0
    ensures Aggregate(orderId, pair, group).price * TotalSize(group) == TotalNotional(group)
  {
    AverageWorth(TotalNotional(group), TotalSize(group));
    CommutesNotional(Aggregate(orderId, pair, group).price, TotalSize(group));
  }

  lemma FillCash(f: Fill, fee: real)
    requires f.fee == fee
    ensures CashDelta(f) == (if f.side.Buy? then -(f.price * f.size) else f.price * f.size) - fee
  {}

  /** At the average price of a group, with its fee pro rata. */
  predicate Prorated(f: Fill, group: seq<ExchangeTrade>) {
    && group != [] && TotalSize(group) > 0.0 && f.side == group[0].side
    && f.price * TotalSize(group) == TotalNotional(group)
    && f.fee == Share(TotalFee(group), f.size, TotalSize(group))
  }

  lemma {:induction false} WholeIsProrated(orderId: OrderId, pair: Pair, group: seq<ExchangeTrade>)
    requires group != [] && TotalSize(group) > 0.0
    ensures Prorated(Aggregate(orderId, pair, group), group)
  {
    AveragePrice(orderId, pair, group);
    WholeShare(TotalFee(group), TotalSize(group));
  }

  lemma {:induction false} RemainderIsProrated(whole: Fill, remainder: real, group: seq<ExchangeTrade>)
    requires Prorated(whole, group) && whole.size == TotalSize(group) && whole.fee == TotalFee(group)
    ensures Prorated(RemainderFill(whole, remainder), group)
  {}

  lemma {:induction false} OwedIsProrated(trail: Trail, pair: Pair, trades: seq<ExchangeTrade>, x: Txid)
    requires Consistent(trail) && Owed(trail, pair, x, Of(trades, x)).Some?
    ensures Prorated(Owed(trail, pair, x, Of(trades, x)).value, Of(trades, x))
  {
    var group := Of(trades, x);
    var whole := Aggregate(Target(trail, x), pair, group);
    RecordedNotNegative(trail.rows, Target(trail, x));
    OwedFits(trail, pair, trades, x);
    WholeIsProrated(Target(trail, x), pair, group);
    RemainderIsProrated(whole, whole.size - RecordedFor(trail, x), group);
  }

  lemma ShareOfFill(f: Fill, money: real, notional: real, fee: real, total: real)
    requires total > 0.0 && f.price * total == notional && f.fee == Share(fee, f.size, total)
    requires money == (if f.side.Buy? then -notional else notional) - fee
    ensures CashDelta(f) == Share(money, f.size, total)
  {
    FillCash(f, Share(fee, f.size, total));
    ShareOfMoney(money, notional, fee, f.price, f.size, total, f.side);
  }

  /** It moves, of the money of its order, the share that its size is of the whole. */
  lemma {:induction false} ShareOfGroup(f: Fill, group: seq<ExchangeTrade>)
    requires Prorated(f, group) && forall t :: t in group ==> t.side == group[0].side
    ensures CashDelta(f) == Share(MoneyTotal(group), f.size, TotalSize(group))
  {
    OneSideTotals(group, f.side);
    ShareOfFill(f, MoneyTotal(group), TotalNotional(group), TotalFee(group), TotalSize(group));
  }

  lemma {:induction false} OwedIsItsShare(trail: Trail, pair: Pair, trades: seq<ExchangeTrade>, x: Txid, f: Fill)
    requires Consistent(trail) && Proper(trades) && Owed(trail, pair, x, Of(trades, x)) == Some(f)
    ensures TotalSize(Of(trades, x)) > 0.0
    ensures CashDelta(f) == Share(MoneyTotal(Of(trades, x)), f.size, TotalSize(Of(trades, x)))
  {
    OwedIsProrated(trail, pair, trades, x);
    ProperOrder(trades, x);
    ShareOfGroup(f, Of(trades, x));
  }

  lemma CommutesNotional(price: real, size: real)
    ensures Notional(price, size) == price * size
  {}

  lemma WholeShare(fee: real, total: real)
    requires total != 0.0
    ensures Share(fee, total, total) == fee
  {}

  /** What one order gains in the books when reconciliation recovers what it owes. */
  ghost predicate Gains(before: seq<FillRow>, after: seq<FillRow>, id: OrderId, delta: real, cash: real) {
    BooksDelta(after, id) == BooksDelta(before, id) + delta && BooksCash(after, id) == BooksCash(before, id) + cash
  }

  /** Reconciliation adds to the books of an order what the fill it owes moves, on the order's side,
      and nothing to the others. */
  lemma {:induction false} ReconciledMoney(trail: Trail, pair: Pair, trades: seq<ExchangeTrade>, x: Txid)
    requires Consistent(trail)
    ensures var owed, id := Owed(trail, pair, x, Of(trades, x)), Target(trail, x);
            var after := RecordAll(trail, AllMissed(trail, pair, trades)).rows;
            && (owed.Some? <==> TotalSize(Of(trades, x)) - RecordedFor(trail, x) > SIZE_TOLERANCE)
            && (owed.None? ==> Gains(trail.rows, after, id, 0.0, 0.0))
            && (owed.Some? ==>
                  && Of(trades, x) != [] && owed.value.side == Of(trades, x)[0].side
                  && owed.value.size == TotalSize(Of(trades, x)) - RecordedFor(trail, x)
                  && Gains(trail.rows, after, id, Signed(owed.value.side, owed.value.size), CashDelta(owed.value)))
  {
    OwedFits(trail, pair, trades, x);
    if Owed(trail, pair, x, Of(trades, x)).Some? {
      OwedIs(trail, pair, trades, x);
      OwedGains(trail, pair, trades, x);
    } else {
      OthersGainNothing(trail, pair, trades, x);
    }
  }

  lemma {:induction false} OwedGains(trail: Trail, pair: Pair, trades: seq<ExchangeTrade>, x: Txid)
    requires Consistent(trail) && Owed(trail, pair, x, Of(trades, x)).Some?
    requires Owed(trail, pair, x, Of(trades, x)).value.pair == pair
    ensures var f := Owed(trail, pair, x, Of(trades, x)).value;
            Gains(trail.rows, RecordAll(trail, AllMissed(trail, pair, trades)).rows, Target(trail, x),
                  Signed(f.side, f.size), CashDelta(f))
  {
    AllFit(trail, pair, trades);
    RecordedMoves(trail, trades, AllMissed(trail, pair, trades), x);
    OwnFill(trail, pair, trades, x);
  }

  lemma {:induction false} OthersGainNothing(trail: Trail, pair: Pair, trades: seq<ExchangeTrade>, x: Txid)
    requires Consistent(trail) && Owed(trail, pair, x, Of(trades, x)).None?
    ensures Gains(trail.rows, RecordAll(trail, AllMissed(trail, pair, trades)).rows, Target(trail, x), 0.0, 0.0)
  {
    AllFit(trail, pair, trades);
    MissedTxids(trail, pair, trades, SortedTxids(trades), x);
    RecordedMoves(trail, trades, AllMissed(trail, pair, trades), x);
  }

  /** The recovered fill of an order is what it owed. */
  lemma {:induction false} OwnFill(trail: Trail, pair: Pair, trades: seq<ExchangeTrade>, x: Txid)
    requires Owed(trail, pair, x, Of(trades, x)).Some?
    ensures Recovers(AllMissed(trail, pair, trades), x, Owed(trail, pair, x, Of(trades, x)).value)
  {
    assert x in SortedTxids(trades);
    OwnFillIn(trail, pair, trades, SortedTxids(trades), x);
  }

  lemma {:induction false} OwnFillIn(trail: Trail, pair: Pair, trades: seq<ExchangeTrade>, txids: seq<Txid>, x: Txid)
    requires x in txids && Owed(trail, pair, x, Of(trades, x)).Some?
    ensures Recovers(MissedOf(trail, pair, trades, txids), x, Owed(trail, pair, x, Of(trades, x)).value)
  {
    var init, last := txids[..|txids| - 1], txids[|txids| - 1];
    assert txids == init + [last];
    MissedLast(trail, pair, trades, txids);
    var missed, f := MissedOf(trail, pair, trades, txids), Owed(trail, pair, x, Of(trades, x)).value;
    if last == x {
      assert missed[|missed| - 1] == Missed(x, f);
    } else {
      OwnFillIn(trail, pair, trades, init, x);
      var before := MissedOf(trail, pair, trades, init);
      var i :| 0 <= i < |before| && before[i].txid == x && before[i].fill == f;
      assert missed[i] == before[i];
    }
  }

  /** Of one side's trades the sizes tell the position. */
  lemma {:induction false} SidedTotal(trades: seq<ExchangeTrade>, x: Txid, side: Side)
    requires forall t :: t in trades && t.txid == x ==> t.side == side
    ensures SignedTotal(Of(trades, x)) == Signed(side, TotalSize(Of(trades, x)))
    ensures Of(trades, x) != [] ==> Of(trades, x)[0].side == side
  {
    forall t | t in Of(trades, x) ensures t.side == side {
      OfElements(trades, x, t);
    }
    OneSideTotals(Of(trades, x), side);
  }

  /** The rows of an order are all on one side. */
  ghost predicate RowsOn(rows: seq<FillRow>, id: OrderId, side: Side) {
    forall i :: 0 <= i < |rows| && rows[i].orderId == id ==> rows[i].side == side
  }

  lemma {:induction false} RowsTell(rows: seq<FillRow>, id: OrderId, side: Side)
    requires RowsOn(rows, id, side)
    ensures BooksDelta(rows, id) == Signed(side, Recorded(rows, id))
  {
    if rows != [] {
      RowsTell(rows[..|rows| - 1], id, side);
    }
  }

  /** The position that an order's rows and the fills reported since add up to. */
  ghost function AccountedDelta(trail: Trail, pair: Pair, answer: seq<ExchangeTrade>, r: World, x: Txid): real {
    BooksDelta(RecordAll(trail, AllMissed(trail, pair, answer)).rows, Target(trail, x))
    + FilledAmount(r.fills, x, Resume.DeltaOn(pair))
  }

  ghost function AccountedCash(trail: Trail, pair: Pair, answer: seq<ExchangeTrade>, r: World, x: Txid): real {
    BooksCash(RecordAll(trail, AllMissed(trail, pair, answer)).rows, Target(trail, x))
    + FilledAmount(r.fills, x, Resume.CashMoves())
  }

  /** Across a crash, whatever the exchange then executes and the venue reports: of an order on one
      side the books have the position of what they account for, so position follows the exchange
      exactly when size does. */
  lemma {:induction false} PositionFollowsTheExchange(trail: Trail, pair: Pair, w: World, n: nat, asOf: int,
                                                      historySince: int, answer: seq<ExchangeTrade>,
                                                      events: seq<LiveProtocol.Event>, last: seq<ExchangeTrade>,
                                                      r: World, x: Txid, side: Side)
    requires Consistent(trail) && FetchedAt(w.ex, n, asOf) && Since(historySince, trail) <= asOf
    requires Answers(answer, w.ex.log[..n], Some(WindowStart(historySince, trail)))
    requires Starts(w, CursorFrom(Since(historySince, trail), answer), Ids(answer))
    requires RunsToPoll(w, events, last, pair, r) && Proper(r.ex.log)
    requires RowsOn(trail.rows, Target(trail, x), side)
    requires forall t :: t in r.ex.log && t.txid == x ==> t.side == side
    ensures SignedTotal(Of(r.ex.log, x)) == Signed(side, TotalSize(Of(r.ex.log, x)))
    ensures AccountedDelta(trail, pair, answer, r, x)
         == Signed(side, RecordedFor(RecordAll(trail, AllMissed(trail, pair, answer)), x) + FilledSize(r.fills, x))
    ensures Accounts(trail, pair, w.ex.log[..n], answer, WindowStart(historySince, trail), x, r)
  {
    BooksFollowTheExchange(trail, pair, w, n, asOf, historySince, answer, events, last, r, x);
    SidedTotal(r.ex.log, x, side);
    DeltaFollows(trail, pair, w, n, asOf, historySince, answer, events, last, r, x, side);
  }

  lemma {:induction false} DeltaFollows(trail: Trail, pair: Pair, w: World, n: nat, asOf: int, historySince: int,
                                        answer: seq<ExchangeTrade>, events: seq<LiveProtocol.Event>,
                                        last: seq<ExchangeTrade>, r: World, x: Txid, side: Side)
    requires Consistent(trail) && FetchedAt(w.ex, n, asOf) && Since(historySince, trail) <= asOf
    requires Answers(answer, w.ex.log[..n], Some(WindowStart(historySince, trail)))
    requires Starts(w, CursorFrom(Since(historySince, trail), answer), Ids(answer))
    requires RunsToPoll(w, events, last, pair, r) && Proper(r.ex.log)
    requires RowsOn(trail.rows, Target(trail, x), side)
    requires forall t :: t in r.ex.log && t.txid == x ==> t.side == side
    ensures AccountedDelta(trail, pair, answer, r, x)
         == Signed(side, RecordedFor(RecordAll(trail, AllMissed(trail, pair, answer)), x) + FilledSize(r.fills, x))
  {
    FilledSince(w, n, asOf, Since(historySince, trail), answer, pair, events, last, r, x);
    Sublogs(w, n, answer, Some(WindowStart(historySince, trail)), r, x, side);
    AccountedOnSide(trail, pair, answer, n, r, x, side);
  }

  lemma {:induction false} AccountedOnSide(trail: Trail, pair: Pair, answer: seq<ExchangeTrade>, n: nat, r: World,
                                           x: Txid, side: Side)
    requires Consistent(trail) && Proper(answer) && RowsOn(trail.rows, Target(trail, x), side) && n <= |r.ex.log|
    requires forall t :: t in answer && t.txid == x ==> t.side == side
    requires forall t :: t in r.ex.log[n..] && t.txid == x ==> t.side == side
    requires FilledSize(r.fills, x) == TotalSize(Of(r.ex.log[n..], x))
    requires FilledAmount(r.fills, x, Resume.DeltaOn(pair)) == SignedTotal(Of(r.ex.log[n..], x))
    ensures AccountedDelta(trail, pair, answer, r, x)
         == Signed(side, RecordedFor(RecordAll(trail, AllMissed(trail, pair, answer)), x) + FilledSize(r.fills, x))
  {
    SidedTotal(r.ex.log[n..], x, side);
    BooksOnSide(trail, pair, answer, x, side);
  }

  /** What the venue reported since the fetch, in size, position and cash. */
  lemma {:induction false} FilledSince(w: World, n: nat, asOf: int, since: int, answer: seq<ExchangeTrade>, pair: Pair,
                                       events: seq<LiveProtocol.Event>, last: seq<ExchangeTrade>, r: World, x: Txid)
    requires FetchedAt(w.ex, n, asOf) && since <= asOf
    requires Answers(answer, w.ex.log[..n], Some(since - CURSOR_MARGIN_MS))
    requires Starts(w, CursorFrom(since, answer), Ids(answer))
    requires RunsToPoll(w, events, last, pair, r) && Proper(r.ex.log)
    ensures n <= |r.ex.log| && r.ex.log[..n] == w.ex.log[..n]
    ensures FilledSize(r.fills, x) == TotalSize(Of(r.ex.log[n..], x))
    ensures FilledAmount(r.fills, x, Resume.DeltaOn(pair)) == SignedTotal(Of(r.ex.log[n..], x))
    ensures FilledAmount(r.fills, x, Resume.CashMoves()) == MoneyTotal(Of(r.ex.log[n..], x))
  {
    ReconcileHandsOver(w, n, asOf, since, answer);
    PollCatchesUp(w, events, last, n, pair);
    PollFollowsMoney(w, events, last, n, pair);
    HandoverStarts(w, n);
    RunKeeps(w, events, n, pair);
  }

  lemma Sublogs(w: World, n: nat, answer: seq<ExchangeTrade>, from: Option<int>, r: World, x: Txid, side: Side)
    requires n <= |w.ex.log| && n <= |r.ex.log| && r.ex.log[..n] == w.ex.log[..n]
    requires Answers(answer, w.ex.log[..n], from) && Proper(r.ex.log)
    requires forall t :: t in r.ex.log && t.txid == x ==> t.side == side
    ensures Proper(answer) && (forall t :: t in answer && t.txid == x ==> t.side == side)
    ensures forall t :: t in r.ex.log[n..] && t.txid == x ==> t.side == side
  {
    assert forall t :: t in r.ex.log[..n] ==> t in r.ex.log;
    assert forall t :: t in r.ex.log[n..] ==> t in r.ex.log;
    assert forall t :: t in answer ==> t in r.ex.log;
  }

  lemma {:induction false} BooksOnSide(trail: Trail, pair: Pair, answer: seq<ExchangeTrade>, x: Txid, side: Side)
    requires Consistent(trail) && Proper(answer) && RowsOn(trail.rows, Target(trail, x), side)
    requires forall t :: t in answer && t.txid == x ==> t.side == side
    ensures var after := RecordAll(trail, AllMissed(trail, pair, answer));
            BooksDelta(after.rows, Target(trail, x)) == Signed(side, RecordedFor(after, x))
  {
    RowsTell(trail.rows, Target(trail, x), side);
    ReconciledMoney(trail, pair, answer, x);
    RecoveredPerOrder(trail, pair, answer, x);
    SidedTotal(answer, x, side);
  }

  /** And cash: when the window holds all of an order's earlier trades and the books owed some of it,
      they end up off the exchange's money by exactly as much as the recorded part was off the
      order's average price and fee; an order that was not recorded at all comes out exactly. */
  lemma {:induction false} CashFollowsTheExchange(trail: Trail, pair: Pair, w: World, n: nat, asOf: int,
                                                  historySince: int, answer: seq<ExchangeTrade>,
                                                  events: seq<LiveProtocol.Event>, last: seq<ExchangeTrade>, r: World,
                                                  x: Txid)
    requires Consistent(trail) && FetchedAt(w.ex, n, asOf) && Since(historySince, trail) <= asOf
    requires Answers(answer, w.ex.log[..n], Some(WindowStart(historySince, trail)))
    requires Starts(w, CursorFrom(Since(historySince, trail), answer), Ids(answer))
    requires RunsToPoll(w, events, last, pair, r) && Proper(r.ex.log)
    requires forall t :: t in w.ex.log[..n] && t.txid == x ==> t in answer
    requires TotalSize(Of(answer, x)) - RecordedFor(trail, x) > SIZE_TOLERANCE
    ensures CashIsOffBy(trail, pair, answer, r, x)
  {
    FilledSince(w, n, asOf, Since(historySince, trail), answer, pair, events, last, r, x);
    ProperPrefix(r.ex.log[..n], r.ex.log);
    AnswerProper(w.ex.log[..n], answer, Some(WindowStart(historySince, trail)));
    HeadDistinct(w.ex.log, n);
    WholeWindow(w.ex.log[..n], answer, x, Some(WindowStart(historySince, trail)));
    CashGap(trail, pair, answer, n, r, x);
  }

  lemma {:induction false} CashGap(trail: Trail, pair: Pair, answer: seq<ExchangeTrade>, n: nat, r: World, x: Txid)
    requires Consistent(trail) && Proper(answer) && n <= |r.ex.log|
    requires MoneyTotal(Of(answer, x)) == MoneyTotal(Of(r.ex.log[..n], x))
    requires FilledAmount(r.fills, x, Resume.CashMoves()) == MoneyTotal(Of(r.ex.log[n..], x))
    requires TotalSize(Of(answer, x)) - RecordedFor(trail, x) > SIZE_TOLERANCE
    ensures CashIsOffBy(trail, pair, answer, r, x)
  {
    var group, done := Of(answer, x), RecordedFor(trail, x);
    ReconciledMoney(trail, pair, answer, x);
    var f := Owed(trail, pair, x, group).value;
    OwedIsItsShare(trail, pair, answer, x, f);
    GapOfFill(trail, pair, answer, n, r, x, f);
    RestOfShare(MoneyTotal(group), TotalSize(group), done, f);
  }

  lemma {:induction false} GapOfFill(trail: Trail, pair: Pair, answer: seq<ExchangeTrade>, n: nat, r: World, x: Txid,
                                     f: Fill)
    requires Consistent(trail) && n <= |r.ex.log| && Owed(trail, pair, x, Of(answer, x)) == Some(f)
    requires MoneyTotal(Of(answer, x)) == MoneyTotal(Of(r.ex.log[..n], x))
    requires FilledAmount(r.fills, x, Resume.CashMoves()) == MoneyTotal(Of(r.ex.log[n..], x))
    ensures MoneyTotal(Of(r.ex.log, x)) - AccountedCash(trail, pair, answer, r, x)
         == MoneyTotal(Of(answer, x)) - CashDelta(f) - BooksCash(trail.rows, Target(trail, x))
  {
    CashGained(trail, pair, answer, x, f);
    LogMoney(r.ex.log, n, x);
  }

  lemma {:induction false} CashGained(trail: Trail, pair: Pair, answer: seq<ExchangeTrade>, x: Txid, f: Fill)
    requires Consistent(trail) && Owed(trail, pair, x, Of(answer, x)) == Some(f)
    ensures BooksCash(RecordAll(trail, AllMissed(trail, pair, answer)).rows, Target(trail, x))
         == BooksCash(trail.rows, Target(trail, x)) + CashDelta(f)
  {
    ReconciledMoney(trail, pair, answer, x);
  }

  lemma {:induction false} LogMoney(log: seq<ExchangeTrade>, n: nat, x: Txid)
    requires n <= |log|
    ensures MoneyTotal(Of(log, x)) == MoneyTotal(Of(log[..n], x)) + MoneyTotal(Of(log[n..], x))
  {
    assert log == log[..n] + log[n..];
    OfSplits(log[..n], log[n..], x);
  }

  lemma RestOfShare(money: real, total: real, done: real, f: Fill)
    requires total > 0.0 && f.size == total - done && CashDelta(f) == Share(money, f.size, total)
    ensures money - CashDelta(f) == Share(money, done, total)
    ensures done == 0.0 ==> money == CashDelta(f)
  {
    FeeSplit(money, total - done, done, total);
    NoShare(money, done, total);
  }

  /** The distance between the exchange's money for an order and the books'. */
  ghost predicate CashIsOffBy(trail: Trail, pair: Pair, answer: seq<ExchangeTrade>, r: World, x: Txid) {
    var group, done := Of(answer, x), RecordedFor(trail, x);
    && TotalSize(group) > 0.0
    && MoneyTotal(Of(r.ex.log, x)) - AccountedCash(trail, pair, answer, r, x)
       == Share(MoneyTotal(group), done, TotalSize(group)) - BooksCash(trail.rows, Target(trail, x))
    && (BooksCash(trail.rows, Target(trail, x)) == done == 0.0 ==>
          AccountedCash(trail, pair, answer, r, x) == MoneyTotal(Of(r.ex.log, x)))
  }

  lemma AnswerProper(log: seq<ExchangeTrade>, answer: seq<ExchangeTrade>, from: Option<int>)
    requires Proper(log) && Answers(answer, log, from)
    ensures Proper(answer)
  {}

  /** A window that holds all trades of an order has all its money. */
  lemma {:induction false} WholeWindow(log: seq<ExchangeTrade>, answer: seq<ExchangeTrade>, x: Txid, from: Option<int>)
    requires DistinctIds(log) && Answers(answer, log, from)
    requires forall t :: t in log && t.txid == x ==> t in answer
    ensures MoneyTotal(Of(answer, x)) == MoneyTotal(Of(log, x))
  {
    OfDistinct(log, x);
    OfDistinct(answer, x);
    forall t ensures t in Of(answer, x) <==> t in Of(log, x) {
      OfElements(log, x, t);
      OfElements(answer, x, t);
    }
    SameTradesSameMoney(Of(answer, x), Of(log, x), x);
    OfTwice(log, x);
    OfTwice(answer, x);
  }

  lemma {:induction false} OfTwice(trades: seq<ExchangeTrade>, x: Txid)
    ensures Of(Of(trades, x), x) == Of(trades, x)
  {
    if trades != [] {
      var init, t := trades[..|trades| - 1], trades[|trades| - 1];
      OfTwice(init, x);
      if t.txid == x {
        OfAppend(Of(init, x), t, x);
      } else {
        assert Of(init, x) + [] == Of(init, x);
      }
    }
  }

  lemma {:induction false} OfDistinct(trades: seq<ExchangeTrade>, x: Txid)
    requires DistinctIds(trades)
    ensures DistinctIds(Of(trades, x))
  {
    if trades != [] {
      var init, last := trades[..|trades| - 1], trades[|trades| - 1];
      OfDistinct(init, x);
      forall i | 0 <= i < |Of(init, x)| ensures Of(init, x)[i].id != last.id {
        assert Of(init, x)[i] in Of(init, x);
        OfElements(init, x, Of(init, x)[i]);
        var k :| 0 <= k < |init| && init[k] == Of(init, x)[i];
        assert trades[k].id != last.id;
      }
    }
  }
}
