/** The ledger object and its append-only entry log (kaupo/ledger/ledger.py). */
module Ledger {
  import opened Domain
  import opened Accounting

  datatype Reason = Deposit | CarryIn | TradeEntry | FundingEntry

  datatype LedgerEntry = LedgerEntry(ts: int, asset: string, amount: real, balanceAfter: real,
                                     reason: Reason, ref: Option<OrderId>)

  // ----- what the log says -----

  /** The running sum of one asset. */
  function Balance(log: seq<LedgerEntry>, asset: string): real {
    if log == [] then 0.0
    else
      var last := log[|log| - 1];
      Balance(log[..|log| - 1], asset) + (if last.asset == asset then last.amount else 0.0)
  }

  ghost predicate Running(log: seq<LedgerEntry>) {
    forall i :: 0 <= i < |log| ==> log[i].balanceAfter == Balance(log[..i + 1], log[i].asset)
  }

  /** The sums of the log are the books. */
  ghost predicate Reconciled(log: seq<LedgerEntry>, quote: string, b: Books) {
    && Balance(log, quote) == b.cash
    && (forall p :: p in b.positions ==> Balance(log, p.base) == b.positions[p].size)
    && (forall asset: string :: asset != quote && (forall p :: p in b.positions ==> p.base != asset)
          ==> Balance(log, asset) == 0.0)
  }

  /** Balances are kept per asset, so each base belongs to one pair. */
  ghost predicate OnePairPerBase(pairs: set<Pair>, quote: string) {
    && (forall p :: p in pairs ==> p.base != quote)
    && (forall p, q :: p in pairs && q in pairs && p.base == q.base ==> p == q)
  }

  /** The balance _record looks up: cash, or the first position found with that base. */
  ghost predicate LooksUp(b: Books, quote: string, asset: string, balance: real) {
    if asset == quote then balance == b.cash
    else if exists p :: p in b.positions && p.base == asset
    then exists p :: p in b.positions && p.base == asset && balance == b.positions[p].size
    else balance == 0.0
  }

  lemma {:induction false} Append(log: seq<LedgerEntry>, e: LedgerEntry)
    ensures forall asset :: Balance(log + [e], asset)
                         == Balance(log, asset) + (if e.asset == asset then e.amount else 0.0)
    ensures Running(log) && e.balanceAfter == Balance(log + [e], e.asset) ==> Running(log + [e])
  {
    assert (log + [e])[..|log|] == log;
    if Running(log) && e.balanceAfter == Balance(log + [e], e.asset) {
      forall i | 0 <= i < |log + [e]|
        ensures (log + [e])[i].balanceAfter == Balance((log + [e])[..i + 1], (log + [e])[i].asset)
      {
        if i < |log| {
          assert (log + [e])[..i + 1] == log[..i + 1];
        } else {
          assert (log + [e])[..i + 1] == log + [e];
        }
      }
    }
  }

  /** `after` is `before` plus one trade, its cash leg and its base leg. */
  ghost predicate TradePosted(before: seq<LedgerEntry>, after: seq<LedgerEntry>, quote: string, b: Books, f: Fill) {
    && |after| == |before| + 2 && after[..|before|] == before
    && (var e := after[|before|];
        && e.(balanceAfter := 0.0) == LedgerEntry(f.ts, quote, CashDelta(f), 0.0, TradeEntry, Some(f.orderId))
        && LooksUp(b, quote, quote, e.balanceAfter))
    && (var e := after[|before| + 1];
        && e.(balanceAfter := 0.0)
           == LedgerEntry(f.ts, f.pair.base, Delta(f, f.pair), 0.0, TradeEntry, Some(f.orderId))
        && LooksUp(b, quote, f.pair.base, e.balanceAfter))
  }

  /** The two entries of a trade carry the log from one state of the books to the next. */
  lemma TradePosts(log: seq<LedgerEntry>, next: seq<LedgerEntry>, quote: string, b: Books, after: Books, f: Fill)
    requires Running(log) && Reconciled(log, quote, b)
    requires OnePairPerBase(b.positions.Keys + {f.pair}, quote)
    requires after.cash == b.cash + CashDelta(f)
    requires f.pair in after.positions && after.positions == b.positions[f.pair := after.positions[f.pair]]
    requires after.positions[f.pair].size == PositionOf(b, f.pair).size + Delta(f, f.pair)
    requires TradePosted(log, next, quote, after, f)
    ensures Running(next) && Reconciled(next, quote, after)
  {
    var cashLeg, baseLeg := next[|log|], next[|log| + 1];
    assert next == log + [cashLeg] + [baseLeg];
    assert f.pair in b.positions.Keys + {f.pair};
    Append(log, cashLeg);
    Append(log + [cashLeg], baseLeg);
    forall p | p in after.positions
      ensures Balance(next, p.base) == after.positions[p].size
    {
      assert p in b.positions.Keys + {f.pair};
    }
  }

  /** Spot, perp or a forced close: an accepted fill posted as a trade keeps the log running. */
  lemma AcceptedFillPosts(perp: bool, force: bool, log: seq<LedgerEntry>, next: seq<LedgerEntry>, quote: string,
                          b: Books, f: Fill)
    requires perp ==> f.size > 0.0
    requires Running(log) && Reconciled(log, quote, b)
    requires OnePairPerBase(b.positions.Keys + {f.pair}, quote)
    requires Fills(perp, b, f, force).Success? && TradePosted(log, next, quote, Fills(perp, b, f, force).value.books, f)
    ensures Running(next) && Reconciled(next, quote, Fills(perp, b, f, force).value.books)
  {
    SizeAfter(perp, b, f, force);
    TradePosts(log, next, quote, b, Fills(perp, b, f, force).value.books, f);
  }

  /** The positions whose opening entry is already in the log. */
  ghost function OutsideOf(b: Books, left: set<Pair>): map<Pair, Position> {
    b.positions - left
  }

  lemma CarryInPosts(log: seq<LedgerEntry>, quote: string, b: Books, left: set<Pair>, pair: Pair, e: LedgerEntry)
    requires Running(log) && Reconciled(log, quote, b.(positions := OutsideOf(b, left)))
    requires OnePairPerBase(b.positions.Keys, quote)
    requires pair in left && pair in b.positions
    requires e.asset == pair.base && e.amount == b.positions[pair].size
    requires LooksUp(b, quote, pair.base, e.balanceAfter)
    ensures Running(log + [e])
    ensures Reconciled(log + [e], quote, b.(positions := OutsideOf(b, left - {pair})))
  {
    Append(log, e);
    assert Balance(log, pair.base) == 0.0;
    forall p | p in OutsideOf(b, left - {pair})
      ensures Balance(log + [e], p.base) == b.positions[p].size
    {
      assert p == pair || p in OutsideOf(b, left);
    }
  }

  /** `after` is `before` plus one funding entry. */
  ghost predicate FundingPosted(before: seq<LedgerEntry>, after: seq<LedgerEntry>, quote: string, b: Books,
                                amount: real)
  {
    && |after| == |before| + 1 && after[..|before|] == before
    && (var e := after[|before|];
        e.(ts := 0) == LedgerEntry(0, quote, amount, b.cash, FundingEntry, None))
  }

  lemma FundingPosts(log: seq<LedgerEntry>, next: seq<LedgerEntry>, quote: string, b: Books, amount: real)
    requires Running(log) && Reconciled(log, quote, b)
    requires forall p :: p in b.positions ==> p.base != quote
    requires FundingPosted(log, next, quote, Accounting.ApplyFunding(b, amount), amount)
    ensures Running(next) && Reconciled(next, quote, Accounting.ApplyFunding(b, amount))
  {
    Append(log, next[|log|]);
    assert next == log + [next[|log|]];
  }

  // ----- a whole history -----

  /** What one event leaves in the log; a rejected fill leaves nothing. */
  ghost predicate Posted(perp: bool, before: seq<LedgerEntry>, after: seq<LedgerEntry>, quote: string, b: Books,
                         e: Event)
    requires Processes(perp, e)
  {
    match e
    case Funding(amount) => FundingPosted(before, after, quote, Process(perp, b, e), amount)
    case Trade(f) => PostedIf(Fills(perp, b, f, false), before, after, quote, f)
    case Liquidation(f) => PostedIf(ApplyPerp(b, f, true), before, after, quote, f)
  }

  ghost predicate PostedIf(r: Result<Applied, Rejection>, before: seq<LedgerEntry>, after: seq<LedgerEntry>,
                           quote: string, f: Fill)
  {
    if r.Success? then TradePosted(before, after, quote, r.value.books, f) else after == before
  }

  /** `logs` is the log before each event of the history, and after the last. */
  ghost predicate Journal(perp: bool, logs: seq<seq<LedgerEntry>>, quote: string, b: Books, events: seq<Event>)
    requires Processable(perp, events)
    decreases |events|
  {
    && |logs| == |events| + 1
    && (events != [] ==>
          && events[0] in events && Posted(perp, logs[0], logs[1], quote, b, events[0])
          && Journal(perp, logs[1..], quote, Process(perp, b, events[0]), events[1..]))
  }

  function PairsOf(events: seq<Event>): set<Pair> {
    set e | e in events && !e.Funding? :: e.fill.pair
  }

  /** Over any history of fills, rejected fills, liquidation fills and funding every entry's balance
      is the running sum of its asset, and the sums are the books the history leads to. */
  lemma {:induction false} JournalStaysRunning(perp: bool, logs: seq<seq<LedgerEntry>>, quote: string, b: Books,
                                               events: seq<Event>)
    requires Processable(perp, events) && Journal(perp, logs, quote, b, events)
    requires OnePairPerBase(b.positions.Keys + PairsOf(events), quote)
    requires Running(logs[0]) && Reconciled(logs[0], quote, b)
    ensures Running(logs[|events|]) && Reconciled(logs[|events|], quote, Replay(perp, b, events))
    decreases |events|
  {
    if events != [] {
      assert events[0] in events && events == [events[0]] + events[1..];
      var after := Process(perp, b, events[0]);
      OnePosting(perp, logs[0], logs[1], quote, b, events[0]);
      assert PairsOf(events[1..]) <= PairsOf(events);
      assert after.positions.Keys <= b.positions.Keys + PairsOf(events);
      JournalStaysRunning(perp, logs[1..], quote, after, events[1..]);
    }
  }

  lemma OnePosting(perp: bool, log: seq<LedgerEntry>, next: seq<LedgerEntry>, quote: string, b: Books, e: Event)
    requires Processes(perp, e) && Posted(perp, log, next, quote, b, e)
    requires OnePairPerBase(b.positions.Keys + PairsOf([e]), quote)
    requires Running(log) && Reconciled(log, quote, b)
    ensures Running(next) && Reconciled(next, quote, Process(perp, b, e))
    ensures Process(perp, b, e).positions.Keys <= b.positions.Keys + PairsOf([e])
  {
    assert e in [e];
    match e
    case Funding(amount) =>
      FundingPosts(log, next, quote, b, amount);
    case Trade(f) =>
      if Fills(perp, b, f, false).Success? {
        SizeAfter(perp, b, f, false);
        AcceptedFillPosts(perp, false, log, next, quote, b, f);
      }
    case Liquidation(f) =>
      SizeAfter(perp, b, f, true);
      AcceptedFillPosts(perp, true, log, next, quote, b, f);
  }

  class Ledger {
    const quote: string
    const perp: bool
    var cash: real
    var positions: map<Pair, Position>
    var realizedPnl: real
    var entries: seq<LedgerEntry>
    // entries already handed to the persistence layer
    ghost var drained: seq<LedgerEntry>

    function Books(): Books
      reads this
    {
      Accounting.Books.Books(cash, positions, realizedPnl)
    }

    ghost function Log(): seq<LedgerEntry>
      reads this
    {
      drained + entries
    }

    /** Every entry's balance is the running sum of its asset, and the sums are the books. */
    ghost predicate Audited()
      reads this
    {
      Running(Log()) && Reconciled(Log(), quote, Books())
    }

    /** A fresh ledger deposits its cash; a resumed one carries in cash and open positions. */
    constructor (quote: string, startingCash: real, ts: int, carried: Option<map<Pair, Position>>, perp: bool)
      requires OnePairPerBase(carried.GetOr(map[]).Keys, quote)
      ensures this.quote == quote && this.perp == perp
      ensures Books() == Accounting.Books.Books(startingCash, OpenPositions(carried.GetOr(map[])), 0.0)
      ensures Audited()
    {
      this.quote := quote;
      this.perp := perp;
      cash := startingCash;
      positions := OpenPositions(carried.GetOr(map[]));
      realizedPnl := 0.0;
      entries := [];
      drained := [];
      new;
      RecordEntry(ts, quote, cash, if carried.None? then Deposit else CarryIn, None);
      Append([], entries[0]);
      assert entries == [] + [entries[0]];
      CarryInPositions(ts);
    }

    /** One opening entry for each position carried in. */
    method CarryInPositions(ts: int)
      requires Running(Log()) && Reconciled(Log(), quote, Books().(positions := map[]))
      requires OnePairPerBase(positions.Keys, quote)
      modifies this`entries
      ensures Audited()
    {
      var left := positions.Keys;
      assert OutsideOf(Books(), left) == map[];
      while left != {}
        invariant left <= positions.Keys
        invariant AuditedOutside(left)
        decreases |left|
      {
        var pair :| pair in left;
        CarryInPosition(ts, pair, left);
        left := left - {pair};
      }
      assert OutsideOf(Books(), left) == positions;
    }

    /** The log accounts for the cash and every position but those still to be carried in. */
    ghost predicate AuditedOutside(left: set<Pair>)
      reads this
    {
      Running(Log()) && Reconciled(Log(), quote, Books().(positions := OutsideOf(Books(), left)))
    }

    method CarryInPosition(ts: int, pair: Pair, ghost left: set<Pair>)
      requires pair in left && left <= positions.Keys && AuditedOutside(left) && OnePairPerBase(positions.Keys, quote)
      modifies this`entries
      ensures AuditedOutside(left - {pair})
    {
      ghost var log := Log();
      RecordEntry(ts, pair.base, positions[pair].size, CarryIn, None);
      assert Log() == log + [entries[|entries| - 1]];
      CarryInPosts(log, quote, Books(), left, pair, entries[|entries| - 1]);
    }

    method RecordEntry(ts: int, asset: string, amount: real, reason: Reason, ref: Option<OrderId>)
      modifies this`entries
      ensures |entries| == |old(entries)| + 1 && entries[..|old(entries)|] == old(entries)
      ensures var e := entries[|old(entries)|];
              && e.(balanceAfter := 0.0) == LedgerEntry(ts, asset, amount, 0.0, reason, ref)
              && LooksUp(Books(), quote, asset, e.balanceAfter)
    {
      var balance := cash;
      if asset != quote {
        balance := PositionFor(asset);
      }
      entries := entries + [LedgerEntry(ts, asset, amount, balance, reason, ref)];
    }

    /** The size of a position in `base`, zero when there is none. */
    method PositionFor(base: string) returns (size: real)
      ensures base != quote ==> LooksUp(Books(), quote, base, size)
    {
      var left := positions;
      while left != map[]
        invariant left.Keys <= positions.Keys
        invariant forall p :: p in positions && p !in left ==> p.base != base
        decreases |left|
      {
        var pair :| pair in left;
        if pair.base == base {
          return positions[pair].size;
        }
        left := left - {pair};
      }
      return 0.0;
    }

    /** Apply a fill; a rejected one raises before anything changes. */
    method ApplyFill(f: Fill) returns (r: Result<real, Rejection>)
      requires perp ==> f.size > 0.0
      modifies this
      ensures match Fills(perp, old(Books()), f, false)
              case Failure(why) => r == Failure(why) && Books() == old(Books()) && Log() == old(Log())
              case Success(a) => r == Success(a.realized) && Books() == a.books
                                 && TradePosted(old(Log()), Log(), quote, Books(), f)
      ensures old(Audited() && OnePairPerBase(positions.Keys + {f.pair}, quote)) ==> Audited()
    {
      if perp {
        r := ApplyFillPerp(f, false);
        return;
      }
      var pos := if f.pair in positions then positions[f.pair] else FLAT;
      var realized := 0.0;
      if f.side.Buy? {
        var cost := -CashDelta(f);
        if cost > cash {
          return Failure(InsufficientFunds);
        }
        cash := cash - cost;
        var newSize := pos.size + f.size;
        var avgEntry := BlendedEntry(pos, newSize, cost);
        if pos.size == 0.0 {
          pos := pos.(entryTs := Some(f.ts));
        }
        pos := pos.(size := newSize, avgEntry := avgEntry);
        positions := positions[f.pair := pos];
      } else {
        if f.size > pos.size {
          return Failure(InsufficientPosition);
        }
        cash := cash + CashDelta(f);
        realized := SaleGain(f.size, f.price, pos.avgEntry, f.fee);
        pos := pos.(size := pos.size - f.size);
        if pos.size == 0.0 {
          pos := pos.(avgEntry := 0.0, entryTs := None);
        }
        positions := positions[f.pair := pos];
        realizedPnl := realizedPnl + realized;
      }
      PostTrade(f);
      AuditTrade(false, old(Log()), old(Books()), f, false);
      return Success(realized);
    }

    /** A posted trade keeps the log audited. */
    lemma AuditTrade(signed: bool, log: seq<LedgerEntry>, b: Books, f: Fill, force: bool)
      requires signed ==> f.size > 0.0
      requires Fills(signed, b, f, force).Success? && Books() == Fills(signed, b, f, force).value.books
      requires TradePosted(log, Log(), quote, Books(), f)
      ensures Running(log) && Reconciled(log, quote, b) && OnePairPerBase(b.positions.Keys + {f.pair}, quote)
          ==> Audited()
    {
      if Running(log) && Reconciled(log, quote, b) && OnePairPerBase(b.positions.Keys + {f.pair}, quote) {
        AcceptedFillPosts(signed, force, log, Log(), quote, b, f);
      }
    }

    /** Close what the fill closes, open the rest; `force` skips the cash check. */
    method ApplyFillPerp(f: Fill, force: bool) returns (r: Result<real, Rejection>)
      requires f.size > 0.0
      modifies this
      ensures match ApplyPerp(old(Books()), f, force)
              case Failure(why) => r == Failure(why) && Books() == old(Books()) && Log() == old(Log())
              case Success(a) => r == Success(a.realized) && Books() == a.books
                                 && TradePosted(old(Log()), Log(), quote, Books(), f)
      ensures old(Audited() && OnePairPerBase(positions.Keys + {f.pair}, quote)) ==> Audited()
    {
      var pos := if f.pair in positions then positions[f.pair] else FLAT;
      var realized := 0.0;
      var remaining := f.size;
      if f.side.Buy? && !force && f.price * f.size + f.fee > cash {
        return Failure(InsufficientFunds);
      }
      cash := cash + CashDelta(f);
      var closing := ClosingSize(pos, f);
      if closing > 0.0 {
        var (mid, gain) := CloseLeg(pos, closing, f.price, Share(f.fee, closing, f.size));
        pos, realized, remaining := mid, gain, remaining - closing;
      }
      if remaining > 0.0 {
        pos := OpenLeg(pos, f.side, remaining, f.price, Share(f.fee, remaining, f.size), f.ts);
      }
      positions := positions[f.pair := pos];
      realizedPnl := realizedPnl + realized;
      PostTrade(f);
      AuditTrade(true, old(Log()), old(Books()), f, force);
      return Success(realized);
    }

    /** Forced close at mark: the cash backstop does not apply. */
    method ApplyLiquidationFill(f: Fill) returns (realized: real)
      requires f.size > 0.0
      modifies this
      ensures Success(Applied(Books(), realized)) == ApplyPerp(old(Books()), f, true)
      ensures TradePosted(old(Log()), Log(), quote, Books(), f)
      ensures old(Audited() && OnePairPerBase(positions.Keys + {f.pair}, quote)) ==> Audited()
    {
      var r := ApplyFillPerp(f, true);
      realized := r.value;
    }

    /** Record both legs of a trade that has just moved the books. */
    method PostTrade(f: Fill)
      modifies this`entries
      ensures TradePosted(old(Log()), Log(), quote, Books(), f)
    {
      RecordEntry(f.ts, quote, CashDelta(f), TradeEntry, Some(f.orderId));
      RecordEntry(f.ts, f.pair.base, Delta(f, f.pair), TradeEntry, Some(f.orderId));
    }

    /** Perpetual funding: a cash flow with an entry of its own. */
    method ApplyFunding(ts: int, amount: real)
      modifies this
      ensures Books() == Accounting.ApplyFunding(old(Books()), amount)
      ensures FundingPosted(old(Log()), Log(), quote, Books(), amount)
      ensures old(Audited()) && OnePairPerBase(positions.Keys, quote) ==> Audited()
    {
      cash := cash + amount;
      RecordEntry(ts, quote, amount, FundingEntry, None);
      assert Log() == old(Log()) + [entries[|entries| - 1]];
      if old(Audited()) && OnePairPerBase(positions.Keys, quote) {
        FundingPosts(old(Log()), Log(), quote, old(Books()), amount);
      }
    }

    /** Cash plus the market value of every position that has a price. */
    method Equity(prices: map<Pair, real>) returns (value: real)
      ensures value == EquityOf(Books(), prices)
    {
      value := cash;
      var left := positions;
      while left != map[]
        invariant left.Keys <= positions.Keys
        invariant forall p :: p in left ==> left[p] == positions[p]
        invariant value + MarketValue(left, prices) == EquityOf(Books(), prices)
        decreases |left|
      {
        var pair :| pair in left;
        MarketValueRemove(left, prices, pair);
        if left[pair].size != 0.0 && pair in prices {
          value := value + Worth(left[pair], prices[pair]);
        }
        left := left - {pair};
      }
    }

    method DrainEntries() returns (out: seq<LedgerEntry>)
      modifies this
      ensures out == old(entries) && entries == []
      ensures Log() == old(Log()) && Books() == old(Books())
    {
      out := entries;
      drained := drained + entries;
      entries := [];
      assert Log() == old(Log());
    }
  }
}
