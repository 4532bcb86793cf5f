/** Round trips and open positions recomputed from fills (kaupo/backtest/metrics.py),
    checked against the ledger's own accounting. */
module Metrics {
  import opened Domain
  import opened Accounting

  /** Open quantity and what it cost, buy fees included. */
  datatype Lot = Lot(qty: real, cost: real)

  datatype RoundTrip = RoundTrip(pnl: real, fees: real)

  /** The cost of `closed` out of a lot, at its average. */
  function AverageCost(lot: Lot): real
    requires lot.qty != 0.0
  {
    lot.cost / lot.qty
  }

  function LotAfter(lot: Lot, f: Fill): Lot {
    if f.side.Buy? then Lot(lot.qty + f.size, lot.cost - CashDelta(f))
    else if lot.qty > 0.0 then
      var closed := Min(f.size, lot.qty);
      Lot(lot.qty - closed, lot.cost - closed * AverageCost(lot))
    else lot
  }

  /** A sell closes open quantity at average cost; its fee is shared by what it closed. */
  function TripOf(lot: Lot, f: Fill): RoundTrip
    requires lot.qty > 0.0 && f.size > 0.0
  {
    var closed := Min(f.size, lot.qty);
    var feeShare := Share(f.fee, closed, f.size);
    RoundTrip(closed * (f.price - AverageCost(lot)) - feeShare, feeShare)
  }

  predicate Sellable(fills: seq<Fill>) {
    forall f :: f in fills && f.side.Sell? ==> f.size > 0.0
  }

  function LotFrom(lot: Lot, fills: seq<Fill>): Lot
    decreases |fills|
  {
    if fills == [] then lot else LotFrom(LotAfter(lot, fills[0]), fills[1..])
  }

  function TripsFrom(lot: Lot, fills: seq<Fill>): seq<RoundTrip>
    requires Sellable(fills)
    decreases |fills|
  {
    if fills == [] then []
    else
      var rest := TripsFrom(LotAfter(lot, fills[0]), fills[1..]);
      if fills[0].side.Sell? && lot.qty > 0.0 then
        assert fills[0] in fills;
        [TripOf(lot, fills[0])] + rest
      else rest
  }

  function TotalPnl(trips: seq<RoundTrip>): real {
    if trips == [] then 0.0 else trips[0].pnl + TotalPnl(trips[1..])
  }

  method OpenPosition(fills: seq<Fill>) returns (lot: Lot)
    ensures lot == LotFrom(Lot(0.0, 0.0), fills)
  {
    lot := Lot(0.0, 0.0);
    for i := 0 to |fills|
      invariant LotFrom(lot, fills[i..]) == LotFrom(Lot(0.0, 0.0), fills)
    {
      assert fills[i..][0] == fills[i] && fills[i..][1..] == fills[i + 1..];
      var f := fills[i];
      if f.side.Buy? {
        lot := Lot(lot.qty + f.size, lot.cost - CashDelta(f));
      } else if lot.qty > 0.0 {
        var avg := AverageCost(lot);
        var closed := Min(f.size, lot.qty);
        lot := Lot(lot.qty - closed, lot.cost - closed * avg);
      }
    }
  }

  method RoundTrips(fills: seq<Fill>, initial: Lot) returns (trips: seq<RoundTrip>)
    requires Sellable(fills)
    ensures trips == TripsFrom(initial, fills)
  {
    trips := [];
    var lot := initial;
    for i := 0 to |fills|
      invariant trips + TripsFrom(lot, fills[i..]) == TripsFrom(initial, fills)
    {
      assert fills[i..][0] == fills[i] && fills[i..][1..] == fills[i + 1..];
      var f := fills[i];
      if f.side.Sell? && lot.qty > 0.0 {
        trips := trips + [TripOf(lot, f)];
      }
      lot := LotAfter(lot, f);
    }
  }

  /** A report may cut a history anywhere: the second part's trips are seeded with the
      open position the first part leaves. */
  lemma {:induction false} SplitHistory(lot: Lot, a: seq<Fill>, b: seq<Fill>)
    requires Sellable(a + b)
    ensures Sellable(a) && Sellable(b)
    ensures TripsFrom(lot, a + b) == TripsFrom(lot, a) + TripsFrom(LotFrom(lot, a), b)
    ensures LotFrom(lot, a + b) == LotFrom(LotFrom(lot, a), b)
    decreases |a|
  {
    assert forall f :: f in a || f in b ==> f in a + b;
    if a == [] {
      assert a + b == b;
    } else {
      assert (a + b)[0] == a[0] && (a + b)[1..] == a[1..] + b;
      SplitHistory(LotAfter(lot, a[0]), a[1..], b);
    }
  }

  // ----- against the ledger -----

  /** What the ledger realized on one pair. */
  function RealizedOn(b: Books, fills: seq<Fill>, pair: Pair): real
    requires ReplayFills(b, fills).Success?
    decreases |fills|
  {
    if fills == [] then 0.0
    else
      var a := ApplySpot(b, fills[0]).value;
      (if fills[0].pair == pair then a.realized else 0.0) + RealizedOn(a.books, fills[1..], pair)
  }

  /** The fills of one pair, in arrival order. */
  function FillsOf(fills: seq<Fill>, pair: Pair): seq<Fill> {
    if fills == [] then []
    else (if fills[0].pair == pair then [fills[0]] else []) + FillsOf(fills[1..], pair)
  }

  predicate Positive(fills: seq<Fill>) {
    forall f :: f in fills ==> f.size > 0.0
  }

  function LotOf(pos: Position): Lot {
    Lot(pos.size, Cost(pos))
  }

  lemma AverageIsEntry(pos: Position)
    requires pos.size > 0.0
    ensures AverageCost(LotOf(pos)) == pos.avgEntry
  {}

  /** One accepted fill moves the lot exactly as it moves the ledger's position. */
  lemma LotFollowsPosition(pos: Position, f: Fill)
    requires pos.size >= 0.0 && f.size > 0.0 && (f.side.Sell? ==> f.size <= pos.size)
    ensures LotAfter(LotOf(pos), f) == LotOf(SpotMove(pos, f).0)
    ensures f.side.Sell? ==> TripOf(LotOf(pos), f).pnl == SpotMove(pos, f).1
    ensures f.side.Buy? ==> SpotMove(pos, f).1 == 0.0
    ensures SpotMove(pos, f).0.size >= 0.0
  {
    SpotMovesCost(pos, f);
    if f.side.Sell? {
      AverageIsEntry(pos);
      SelfShare(f.fee, f.size);
      SellCost(pos.size, pos.avgEntry, f.size, f.price);
      Distribute(f.price, pos.avgEntry, f.size);
    }
  }

  lemma {:induction false} FillsOfKeeps(fills: seq<Fill>, pair: Pair)
    requires Positive(fills)
    ensures Positive(FillsOf(fills, pair))
  {
    if fills != [] {
      assert fills[0] in fills;
      FillsOfKeeps(fills[1..], pair);
    }
  }

  /** What a first fill adds to a history's round trips. */
  lemma {:induction false} FirstTrip(lot: Lot, fills: seq<Fill>)
    requires fills != [] && Sellable(fills) && Sellable(fills[1..])
        && (fills[0].side.Sell? ==> lot.qty > 0.0 && fills[0].size > 0.0)
    ensures TotalPnl(TripsFrom(lot, fills))
         == (if fills[0].side.Sell? then TripOf(lot, fills[0]).pnl else 0.0)
            + TotalPnl(TripsFrom(LotAfter(lot, fills[0]), fills[1..]))
  {
    var rest := TripsFrom(LotAfter(lot, fills[0]), fills[1..]);
    if fills[0].side.Sell? {
      assert ([TripOf(lot, fills[0])] + rest)[1..] == rest;
    }
  }

  lemma {:induction false} OneFillOf(fills: seq<Fill>, pair: Pair)
    requires fills != []
    ensures FillsOf(fills, pair) == (if fills[0].pair == pair then [fills[0]] else []) + FillsOf(fills[1..], pair)
    ensures fills[0].pair == pair ==> FillsOf(fills, pair) != [] && FillsOf(fills, pair)[0] == fills[0]
                                      && FillsOf(fills, pair)[1..] == FillsOf(fills[1..], pair)
    ensures fills[0].pair != pair ==> FillsOf(fills, pair) == FillsOf(fills[1..], pair)
  {}

  /** Round trips and open lot recomputed from one pair's fills, against the ledger's numbers. */
  ghost predicate Agree(start: Position, own: seq<Fill>, realized: real, end: Position) {
    && Positive(own)
    && TotalPnl(TripsFrom(LotOf(start), own)) == realized
    && LotFrom(LotOf(start), own) == LotOf(end)
  }

  lemma AgreeOneMore(pos: Position, own: seq<Fill>, realized: real, end: Position)
    requires own != [] && Positive(own) && pos.size >= 0.0 && (own[0].side.Sell? ==> own[0].size <= pos.size)
    requires Agree(SpotMove(pos, own[0]).0, own[1..], realized, end)
    ensures Agree(pos, own, SpotMove(pos, own[0]).1 + realized, end)
  {
    assert own[0] in own;
    LotFollowsPosition(pos, own[0]);
    FirstTrip(LotOf(pos), own);
  }

  /** The two independent PnL computations agree: on any fills the spot ledger accepts,
      a pair's round trips add up to what the ledger realized on it, and the open
      position recomputed from the fills is the ledger's position at cost. */
  lemma {:induction false} MetricsAgreeWithLedger(b: Books, fills: seq<Fill>, pair: Pair)
    requires LongOnly(b) && Positive(fills) && ReplayFills(b, fills).Success?
    ensures Agree(PositionOf(b, pair), FillsOf(fills, pair), RealizedOn(b, fills, pair),
                  PositionOf(ReplayFills(b, fills).value, pair))
    decreases |fills|
  {
    if fills != [] {
      var f := fills[0];
      assert f in fills;
      var next := ApplySpot(b, f).value.books;
      NextBooks(b, f);
      MetricsAgreeWithLedger(next, fills[1..], pair);
      OneFillOf(fills, pair);
      if f.pair == pair {
        FillsOfKeeps(fills, pair);
        AgreeOneMore(PositionOf(b, pair), FillsOf(fills, pair), RealizedOn(next, fills[1..], pair),
                     PositionOf(ReplayFills(b, fills).value, pair));
      }
    }
  }

  lemma NextBooks(b: Books, f: Fill)
    requires LongOnly(b) && f.size > 0.0 && ApplySpot(b, f).Success?
    ensures var next := ApplySpot(b, f).value.books;
            && LongOnly(next) && PositionOf(next, f.pair) == SpotMove(PositionOf(b, f.pair), f).0
            && ApplySpot(b, f).value.realized == SpotMove(PositionOf(b, f.pair), f).1
            && (forall p :: p != f.pair ==> PositionOf(next, p) == PositionOf(b, p))
  {
    LotFollowsPosition(PositionOf(b, f.pair), f);
  }
}
