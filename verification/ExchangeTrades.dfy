/** Trades as the exchange reports them, and the one fill an order's trades become
    (kaupo/venues/kraken_live.py). */
module ExchangeTrades {
  import opened Domain

  /** `id` names the trade, `txid` the exchange order it belongs to; `ts` is in milliseconds. */
  datatype ExchangeTrade = ExchangeTrade(id: nat, txid: Txid, ts: int, side: Side, price: real, size: real,
                                         fee: real, tier: Option<Tier>)

  function Notional(price: real, size: real): real {
    price * size
  }

  function TotalSize(trades: seq<ExchangeTrade>): real {
    if trades == [] then 0.0 else TotalSize(trades[..|trades| - 1]) + trades[|trades| - 1].size
  }

  function TotalNotional(trades: seq<ExchangeTrade>): real {
    if trades == [] then 0.0
    else TotalNotional(trades[..|trades| - 1]) + Notional(trades[|trades| - 1].price, trades[|trades| - 1].size)
  }

  function TotalFee(trades: seq<ExchangeTrade>): real {
    if trades == [] then 0.0 else TotalFee(trades[..|trades| - 1]) + trades[|trades| - 1].fee
  }

  function NewestTs(trades: seq<ExchangeTrade>): (ts: int)
    requires trades != []
    ensures exists i :: 0 <= i < |trades| && trades[i].ts == ts
    ensures forall i :: 0 <= i < |trades| ==> trades[i].ts <= ts
  {
    var last := trades[|trades| - 1];
    if |trades| == 1 then last.ts
    else
      var before := NewestTs(trades[..|trades| - 1]);
      if last.ts >= before then last.ts else before
  }

  /** The tiers the trades report. */
  function Tiers(trades: seq<ExchangeTrade>): set<Tier> {
    set i | 0 <= i < |trades| && trades[i].tier.Some? :: trades[i].tier.value
  }

  /** The tier every trade agrees on, Mixed when they disagree, none when none says. */
  function Agreed(trades: seq<ExchangeTrade>): Option<Tier> {
    var distinct := Tiers(trades);
    if distinct == {} then None
    else if distinct == {Maker} then Some(Maker)
    else if distinct == {Taker} then Some(Taker)
    else Some(Mixed)
  }

  function Average(notional: real, size: real): real
    requires size > 0.0
  {
    notional / size
  }

  lemma AverageWorth(notional: real, size: real)
    requires size > 0.0
    ensures Notional(Average(notional, size), size) == notional
  {}

  /** One fill from one order's trades: weighted average price, summed size and fee. */
  function Aggregate(orderId: OrderId, pair: Pair, trades: seq<ExchangeTrade>): Fill
    requires trades != []
  {
    var size := TotalSize(trades);
    Fill(orderId, pair, trades[0].side, NewestTs(trades),
         if size > 0.0 then Average(TotalNotional(trades), size) else trades[0].price,
         size, TotalFee(trades), Agreed(trades))
  }

  /** Aggregation keeps the size, the fee and, for a real fill, the money that moved. */
  lemma {:induction false} AggregateConserves(orderId: OrderId, pair: Pair, trades: seq<ExchangeTrade>)
    requires trades != []
    ensures var f := Aggregate(orderId, pair, trades);
            && f.size == TotalSize(trades) && f.fee == TotalFee(trades)
            && (f.size > 0.0 ==> Notional(f.price, f.size) == TotalNotional(trades))
            && (f.tier == Some(Mixed)
                || forall i :: 0 <= i < |trades| && trades[i].tier.Some? ==> f.tier == trades[i].tier)
            && (f.tier.None? <==> forall i :: 0 <= i < |trades| ==> trades[i].tier.None?)
  {
    var f := Aggregate(orderId, pair, trades);
    if f.size > 0.0 {
      AverageWorth(TotalNotional(trades), f.size);
    }
    AgreedMeans(trades);
  }

  lemma AgreedMeans(trades: seq<ExchangeTrade>)
    ensures var tier := Agreed(trades);
            && (tier == Some(Mixed) || forall i :: 0 <= i < |trades| && trades[i].tier.Some? ==> tier == trades[i].tier)
            && (tier.None? <==> forall i :: 0 <= i < |trades| ==> trades[i].tier.None?)
  {
    var distinct := Tiers(trades);
    forall i | 0 <= i < |trades| && trades[i].tier.Some? ensures trades[i].tier.value in distinct {
    }
    if distinct != {} {
      var t :| t in distinct;
      var i :| 0 <= i < |trades| && trades[i].tier.Some? && trades[i].tier.value == t;
    }
  }

  // ----- grouping by exchange order -----

  /** The trades of one exchange order, in order. */
  function Of(trades: seq<ExchangeTrade>, txid: Txid): seq<ExchangeTrade> {
    if trades == [] then []
    else
      var t := trades[|trades| - 1];
      Of(trades[..|trades| - 1], txid) + (if t.txid == txid then [t] else [])
  }

  /** The orders in order of their first trade. */
  function Txids(trades: seq<ExchangeTrade>): seq<Txid> {
    if trades == [] then []
    else
      var before, t := Txids(trades[..|trades| - 1]), trades[|trades| - 1];
      if t.txid in before then before else before + [t.txid]
  }

  lemma {:induction false} OfAppend(trades: seq<ExchangeTrade>, t: ExchangeTrade, txid: Txid)
    ensures Of(trades + [t], txid) == Of(trades, txid) + (if t.txid == txid then [t] else [])
  {
    assert (trades + [t])[..|trades|] == trades;
  }

  lemma {:induction false} OfConcat(a: seq<ExchangeTrade>, b: seq<ExchangeTrade>, txid: Txid)
    ensures Of(a + b, txid) == Of(a, txid) + Of(b, txid)
  {
    if b == [] {
      assert a + b == a;
    } else {
      var init := b[..|b| - 1];
      OfConcat(a, init, txid);
      assert a + b == (a + init) + [b[|b| - 1]] && b == init + [b[|b| - 1]];
      OfAppend(a + init, b[|b| - 1], txid);
    }
  }

  lemma {:induction false} SizeConcat(a: seq<ExchangeTrade>, b: seq<ExchangeTrade>)
    ensures TotalSize(a + b) == TotalSize(a) + TotalSize(b)
  {
    if b == [] {
      assert a + b == a;
    } else {
      assert (a + b)[..|a + b| - 1] == a + b[..|b| - 1];
      SizeConcat(a, b[..|b| - 1]);
    }
  }

  predicate Distinct(txids: seq<Txid>) {
    forall i, j :: 0 <= i < j < |txids| ==> txids[i] != txids[j]
  }

  lemma {:induction false} TxidsAre(trades: seq<ExchangeTrade>)
    ensures Distinct(Txids(trades))
    ensures forall x :: x in Txids(trades) <==> Of(trades, x) != []
  {
    if trades != [] {
      TxidsAre(trades[..|trades| - 1]);
    }
  }

  lemma {:induction false} OfElements(trades: seq<ExchangeTrade>, txid: Txid, t: ExchangeTrade)
    ensures t in Of(trades, txid) <==> t in trades && t.txid == txid
  {
    if trades != [] {
      OfElements(trades[..|trades| - 1], txid, t);
      assert trades == trades[..|trades| - 1] + [trades[|trades| - 1]];
    }
  }

  /** The dictionary of groups, and its insertion order. */
  method GroupByTxid(trades: seq<ExchangeTrade>) returns (txids: seq<Txid>, groups: map<Txid, seq<ExchangeTrade>>)
    ensures txids == Txids(trades)
    ensures forall x :: x in groups <==> x in txids
    ensures forall x :: x in groups ==> groups[x] == Of(trades, x) && groups[x] != []
  {
    txids, groups := [], map[];
    for i := 0 to |trades|
      invariant txids == Txids(trades[..i])
      invariant forall x :: x in groups <==> x in txids
      invariant forall x :: x in groups ==> groups[x] == Of(trades[..i], x)
    {
      var t := trades[i];
      assert trades[..i + 1] == trades[..i] + [t] && trades[..i + 1][..i] == trades[..i];
      TxidsAre(trades[..i]);
      forall x ensures Of(trades[..i + 1], x) == Of(trades[..i], x) + (if t.txid == x then [t] else []) {
        OfAppend(trades[..i], t, x);
      }
      if t.txid !in groups {
        txids := txids + [t.txid];
        groups := groups[t.txid := []];
      }
      groups := groups[t.txid := groups[t.txid] + [t]];
    }
    assert trades[..|trades|] == trades;
    TxidsAre(trades);
  }
}
