/** What a fill does to cash, positions and realized PnL, and what no history of
    fills and funding can change (kaupo/ledger/ledger.py). */
module Accounting {
  import opened Domain
  import Sums

  datatype Rejection = InsufficientFunds | InsufficientPosition

  /** The part of the ledger that decides every later fill. */
  datatype Books = Books(cash: real, positions: map<Pair, Position>, realized: real)

  /** An accepted fill: the books after it and the PnL it realized. */
  datatype Applied = Applied(books: Books, realized: real)

  function PositionOf(b: Books, pair: Pair): Position {
    if pair in b.positions then b.positions[pair] else FLAT
  }

  // ----- fills -----

  /** The average entry once `paid` brings the position to `size`. */
  function BlendedEntry(pos: Position, size: real, paid: real): real {
    if size > 0.0 then (pos.size * pos.avgEntry + paid) / size else 0.0
  }

  function CashDelta(f: Fill): real {
    if f.side.Buy? then -(f.price * f.size + f.fee) else f.price * f.size - f.fee
  }

  function SaleGain(size: real, price: real, avgEntry: real, fee: real): real {
    size * (price - avgEntry) - fee
  }

  /** The position and realized PnL an accepted spot fill leaves. */
  function SpotMove(pos: Position, f: Fill): (Position, real) {
    if f.side.Buy? then
      var size := pos.size + f.size;
      var entry := if pos.size == 0.0 then Some(f.ts) else pos.entryTs;
      (Position(size, BlendedEntry(pos, size, -CashDelta(f)), entry), 0.0)
    else
      var size := pos.size - f.size;
      (if size == 0.0 then FLAT else pos.(size := size), SaleGain(f.size, f.price, pos.avgEntry, f.fee))
  }

  /** Spot: a buy needs the cash, a sell needs the position, nothing else is checked. */
  function ApplySpot(b: Books, f: Fill): Result<Applied, Rejection> {
    var pos := PositionOf(b, f.pair);
    if f.side.Buy? && -CashDelta(f) > b.cash then Failure(InsufficientFunds)
    else if f.side.Sell? && f.size > pos.size then Failure(InsufficientPosition)
    else
      var (after, realized) := SpotMove(pos, f);
      Success(Applied(Books(b.cash + CashDelta(f), b.positions[f.pair := after], b.realized + realized), realized))
  }

  /** Close `qty` of a signed position at `price`, paying `fee`. */
  function CloseLeg(pos: Position, qty: real, price: real, fee: real): (Position, real) {
    var gain := if pos.size > 0.0 then price - pos.avgEntry else pos.avgEntry - price;
    var size := if pos.size > 0.0 then pos.size - qty else pos.size + qty;
    (if size == 0.0 then FLAT else pos.(size := size), qty * gain - fee)
  }

  /** Open or extend a position by `qty` on one side; the fee enters the cost basis. */
  function OpenLeg(pos: Position, side: Side, qty: real, price: real, fee: real, ts: int): Position
    requires qty > 0.0
    requires if side.Buy? then pos.size >= 0.0 else pos.size <= 0.0
  {
    var entry := if pos.size == 0.0 then Some(ts) else pos.entryTs;
    if side.Buy? then
      Position(pos.size + qty, (pos.size * pos.avgEntry + qty * price + fee) / (pos.size + qty), entry)
    else
      var held := -pos.size;
      Position(pos.size - qty, (held * pos.avgEntry + qty * price - fee) / (held + qty), entry)
  }

  /** How much of a fill closes the position it meets. */
  function ClosingSize(pos: Position, f: Fill): real {
    if f.side.Sell? && pos.size > 0.0 then Min(f.size, pos.size)
    else if f.side.Buy? && pos.size < 0.0 then Min(f.size, -pos.size)
    else 0.0
  }

  /** Close `closing`, then open `rest`, each with its own fee. */
  function Legs(pos: Position, side: Side, closing: real, rest: real, price: real,
                closeFee: real, openFee: real, ts: int): (Position, real)
    requires 0.0 <= closing && 0.0 <= rest
    requires closing > 0.0 ==> if side.Sell? then closing <= pos.size else closing <= -pos.size
    requires rest > 0.0 ==> if side.Sell? then pos.size <= closing else -pos.size <= closing
  {
    var (mid, realized) := if closing > 0.0 then CloseLeg(pos, closing, price, closeFee) else (pos, 0.0);
    (if rest > 0.0 then OpenLeg(mid, side, rest, price, openFee, ts) else mid, realized)
  }

  /** The part of a fee that belongs to `part` of a fill of size `total`. */
  function Share(fee: real, part: real, total: real): real
    requires total != 0.0
  {
    fee * (part / total)
  }

  /** The position and realized PnL a perp fill leaves; its fee is split pro rata. */
  function PerpMove(pos: Position, f: Fill): (Position, real)
    requires f.size > 0.0
  {
    var closing := ClosingSize(pos, f);
    var rest := f.size - closing;
    Legs(pos, f.side, closing, rest, f.price, Share(f.fee, closing, f.size), Share(f.fee, rest, f.size), f.ts)
  }

  /** Perp: sizes are signed and a flip is one fill; `force` is the liquidation
      path, which skips the cash check. */
  function ApplyPerp(b: Books, f: Fill, force: bool): Result<Applied, Rejection>
    requires f.size > 0.0
  {
    if f.side.Buy? && !force && -CashDelta(f) > b.cash then Failure(InsufficientFunds)
    else
      var (after, realized) := PerpMove(PositionOf(b, f.pair), f);
      Success(Applied(Books(b.cash + CashDelta(f), b.positions[f.pair := after], b.realized + realized), realized))
  }

  /** The books after fills the ledger accepted one by one, if it accepted them all. */
  function ReplayFills(b: Books, fills: seq<Fill>): Result<Books, Rejection>
    decreases |fills|
  {
    if fills == [] then Success(b)
    else
      match ApplySpot(b, fills[0])
      case Failure(why) => Failure(why)
      case Success(a) => ReplayFills(a.books, fills[1..])
  }

  /** Either instrument. */
  function Fills(perp: bool, b: Books, f: Fill, force: bool): Result<Applied, Rejection>
    requires perp ==> f.size > 0.0
  {
    if perp then ApplyPerp(b, f, force) else ApplySpot(b, f)
  }

  /** An accepted fill moves the position by its own signed size and the cash by its own amount. */
  lemma SizeAfter(perp: bool, b: Books, f: Fill, force: bool)
    requires perp ==> f.size > 0.0
    requires Fills(perp, b, f, force).Success?
    ensures var after := Fills(perp, b, f, force).value.books;
            && after.cash == b.cash + CashDelta(f)
            && after.positions == b.positions[f.pair := PositionOf(after, f.pair)]
            && PositionOf(after, f.pair).size == PositionOf(b, f.pair).size + Delta(f, f.pair)
  {}

  function ApplyFunding(b: Books, amount: real): Books {
    b.(cash := b.cash + amount)
  }

  // ----- valuation -----

  function ValueAt(pos: Position, pair: Pair, prices: map<Pair, real>): real {
    if pos.size != 0.0 && pair in prices then Worth(pos, prices[pair]) else 0.0
  }

  ghost function MarketValue(positions: map<Pair, Position>, prices: map<Pair, real>): real {
    Sums.Sum(map p | p in positions :: ValueAt(positions[p], p, prices))
  }

  ghost function EquityOf(b: Books, prices: map<Pair, real>): real {
    b.cash + MarketValue(b.positions, prices)
  }

  lemma MarketValueRemove(positions: map<Pair, Position>, prices: map<Pair, real>, pair: Pair)
    requires pair in positions
    ensures MarketValue(positions, prices)
         == ValueAt(positions[pair], pair, prices) + MarketValue(positions - {pair}, prices)
  {
    var values := map p | p in positions :: ValueAt(positions[p], p, prices);
    var rest := positions - {pair};
    assert (map p | p in rest :: ValueAt(rest[p], p, prices)) == values - {pair};
    Sums.SumRemove(values, pair);
  }

  /** The state a resume carries: positions that are not flat. */
  function OpenPositions(positions: map<Pair, Position>): map<Pair, Position> {
    map p | p in positions && positions[p].size != 0.0 :: positions[p]
  }

  // ----- the accounting identity -----

  ghost function CostBasis(positions: map<Pair, Position>): real {
    Sums.Sum(map p | p in positions :: Cost(positions[p]))
  }

  /** Everything ever paid in: cash plus cost basis, less the profit already realized. */
  ghost function PaidIn(b: Books): real {
    b.cash + CostBasis(b.positions) - b.realized
  }

  lemma CostBasisUpdate(b: Books, pair: Pair, pos: Position)
    ensures CostBasis(b.positions[pair := pos])
         == CostBasis(b.positions) - Cost(PositionOf(b, pair)) + Cost(pos)
  {
    var costs := map p | p in b.positions :: Cost(b.positions[p]);
    var after := b.positions[pair := pos];
    assert (map p | p in after :: Cost(after[p])) == costs[pair := Cost(pos)];
    Sums.SumUpdate(costs, pair, Cost(pos));
  }

  lemma CancelDivision(x: real, y: real)
    requires y != 0.0
    ensures y * (x / y) == x
  {}

  lemma Distribute(a: real, b: real, c: real)
    ensures (a + b) * c == a * c + b * c
    ensures (a - b) * c == a * c - b * c
    ensures c * (a + b) == c * a + c * b
    ensures c * (a - b) == c * a - c * b
  {}

  /** Long-only books: what every spot run keeps. */
  ghost predicate LongOnly(b: Books) {
    forall p :: p in b.positions ==> b.positions[p].size >= 0.0
  }

  /** A fill the program can build: positive, or the zero-size order that a
      zero minimum order value lets through, whose fee is then zero. */
  predicate WellSized(f: Fill) {
    f.size > 0.0 || (f.size == 0.0 && f.fee == 0.0)
  }

  /** What one accepted fill does, as amounts: the position's cost moves by
      exactly what the cash and the realized PnL do not explain. */
  lemma SpotMovesCost(pos: Position, f: Fill)
    requires pos.size >= 0.0 && WellSized(f) && (f.side.Sell? ==> f.size <= pos.size)
    ensures SpotMove(pos, f).0.size >= 0.0
    ensures Cost(SpotMove(pos, f).0) - Cost(pos) == SpotMove(pos, f).1 - CashDelta(f)
  {
    if f.side.Buy? {
      BuyCost(pos, pos.size + f.size, -CashDelta(f));
    } else {
      SellCost(pos.size, pos.avgEntry, f.size, f.price);
    }
  }

  lemma BuyCost(pos: Position, size: real, paid: real)
    ensures size > 0.0 ==> size * BlendedEntry(pos, size, paid) == Cost(pos) + paid
  {
    if size > 0.0 {
      CancelDivision(Cost(pos) + paid, size);
    }
  }

  lemma SellCost(held: real, avg: real, sold: real, price: real)
    ensures (held - sold) * avg - held * avg == sold * (price - avg) - price * sold
  {}

  lemma SpotKeepsIdentity(b: Books, f: Fill)
    requires LongOnly(b) && WellSized(f) && ApplySpot(b, f).Success?
    ensures LongOnly(ApplySpot(b, f).value.books)
    ensures PaidIn(ApplySpot(b, f).value.books) == PaidIn(b)
  {
    var pos := PositionOf(b, f.pair);
    SpotMovesCost(pos, f);
    CostBasisUpdate(b, f.pair, SpotMove(pos, f).0);
  }

  lemma CloseLegCost(pos: Position, qty: real, price: real, fee: real)
    requires pos.size != 0.0 && 0.0 < qty <= Abs(pos.size)
    ensures var (after, realized) := CloseLeg(pos, qty, price, fee);
            var paid := if pos.size > 0.0 then fee - qty * price else fee + qty * price;
            Cost(after) == Cost(pos) + realized + paid
  {
    Distribute(pos.size, qty, pos.avgEntry);
    Distribute(price, pos.avgEntry, qty);
    Distribute(pos.avgEntry, price, qty);
  }

  lemma OpenLegCost(pos: Position, side: Side, qty: real, price: real, fee: real, ts: int)
    requires qty > 0.0
    requires if side.Buy? then pos.size >= 0.0 else pos.size <= 0.0
    ensures var paid := if side.Buy? then fee + qty * price else fee - qty * price;
            Cost(OpenLeg(pos, side, qty, price, fee, ts)) == Cost(pos) + paid
  {
    if side.Buy? {
      CancelDivision(Cost(pos) + qty * price + fee, pos.size + qty);
    } else {
      var x := -pos.size * pos.avgEntry + qty * price - fee;
      CancelDivision(x, -pos.size + qty);
      var avg := x / (-pos.size + qty);
      assert (pos.size - qty) * avg == -((-pos.size + qty) * avg);
      assert -pos.size * pos.avgEntry == -Cost(pos);
    }
  }

  lemma LegsCost(pos: Position, side: Side, closing: real, rest: real, price: real,
                 closeFee: real, openFee: real, ts: int)
    requires 0.0 <= closing && 0.0 <= rest
    requires closing > 0.0 ==> if side.Sell? then closing <= pos.size else closing <= -pos.size
    requires rest > 0.0 ==> if side.Sell? then pos.size <= closing else -pos.size <= closing
    ensures var (after, realized) := Legs(pos, side, closing, rest, price, closeFee, openFee, ts);
            var fees := (if closing > 0.0 then closeFee else 0.0) + (if rest > 0.0 then openFee else 0.0);
            var notional := closing * price + rest * price;
            Cost(after) - Cost(pos) == realized + fees + (if side.Buy? then notional else -notional)
  {
    var mid := pos;
    if closing > 0.0 {
      CloseLegCost(pos, closing, price, closeFee);
      mid := CloseLeg(pos, closing, price, closeFee).0;
    }
    if rest > 0.0 {
      OpenLegCost(mid, side, rest, price, openFee, ts);
    }
  }

  lemma LegsPay(f: Fill, closing: real, rest: real)
    requires f.size > 0.0 && 0.0 <= closing && 0.0 <= rest && closing + rest == f.size
    ensures var fees := (if closing > 0.0 then Share(f.fee, closing, f.size) else 0.0)
                        + (if rest > 0.0 then Share(f.fee, rest, f.size) else 0.0);
            var notional := closing * f.price + rest * f.price;
            -CashDelta(f) == fees + (if f.side.Buy? then notional else -notional)
  {
    FeeSplit(f.fee, closing, rest, f.size);
    NoShare(f.fee, closing, f.size);
    NoShare(f.fee, rest, f.size);
    Distribute(closing, rest, f.price);
  }

  lemma LegsBalance(pos: Position, f: Fill, closing: real, rest: real, closeFee: real, openFee: real)
    requires f.size > 0.0 && closing == ClosingSize(pos, f) && rest == f.size - closing
    requires closeFee == Share(f.fee, closing, f.size) && openFee == Share(f.fee, rest, f.size)
    ensures var (after, realized) := Legs(pos, f.side, closing, rest, f.price, closeFee, openFee, f.ts);
            Cost(after) - Cost(pos) == realized - CashDelta(f)
  {
    LegsPay(f, closing, rest);
    LegsCost(pos, f.side, closing, rest, f.price, closeFee, openFee, f.ts);
  }

  lemma PerpMovesCost(pos: Position, f: Fill)
    requires f.size > 0.0
    ensures Cost(PerpMove(pos, f).0) - Cost(pos) == PerpMove(pos, f).1 - CashDelta(f)
  {
    var closing := ClosingSize(pos, f);
    var rest := f.size - closing;
    var closeFee, openFee := Share(f.fee, closing, f.size), Share(f.fee, rest, f.size);
    var move := Legs(pos, f.side, closing, rest, f.price, closeFee, openFee, f.ts);
    assert PerpMove(pos, f) == move;
    LegsBalance(pos, f, closing, rest, closeFee, openFee);
  }

  lemma NoShare(fee: real, part: real, total: real)
    requires total != 0.0
    ensures part == 0.0 ==> Share(fee, part, total) == 0.0
  {}

  lemma PerpKeepsIdentity(b: Books, f: Fill, force: bool)
    requires f.size > 0.0 && ApplyPerp(b, f, force).Success?
    ensures PaidIn(ApplyPerp(b, f, force).value.books) == PaidIn(b)
  {
    PerpMovesCost(PositionOf(b, f.pair), f);
    CostBasisUpdate(b, f.pair, PositionOf(ApplyPerp(b, f, force).value.books, f.pair));
  }

  lemma FeeSplit(fee: real, a: real, b: real, total: real)
    requires total != 0.0 && a + b == total
    ensures Share(fee, a, total) + Share(fee, b, total) == fee
  {
    assert a / total + b / total == 1.0 by { SumOfShares(a, b, total); }
    Distribute(a / total, b / total, fee);
  }

  lemma SumOfShares(a: real, b: real, total: real)
    requires total != 0.0 && a + b == total
    ensures a / total + b / total == 1.0
  {}

  /** Everything that can move a run's books. */
  datatype Event = Trade(fill: Fill) | Liquidation(fill: Fill) | Funding(amount: real)

  predicate Processes(perp: bool, e: Event) {
    match e
    case Funding(_) => true
    case Trade(f) => if perp then f.size > 0.0 else WellSized(f)
    case Liquidation(f) => perp && f.size > 0.0
  }

  /** A rejected fill leaves the books as they were. */
  function Kept(b: Books, r: Result<Applied, Rejection>): Books {
    if r.Success? then r.value.books else b
  }

  function Process(perp: bool, b: Books, e: Event): Books
    requires Processes(perp, e)
  {
    match e
    case Funding(amount) => ApplyFunding(b, amount)
    case Trade(f) => Kept(b, Fills(perp, b, f, false))
    case Liquidation(f) => Kept(b, ApplyPerp(b, f, true))
  }

  predicate Processable(perp: bool, events: seq<Event>) {
    forall e :: e in events ==> Processes(perp, e)
  }

  function Replay(perp: bool, b: Books, events: seq<Event>): Books
    requires Processable(perp, events)
    decreases |events|
  {
    if events == [] then b else Replay(perp, Process(perp, b, events[0]), events[1..])
  }

  function TotalFunding(events: seq<Event>): real {
    if events == [] then 0.0
    else (if events[0].Funding? then events[0].amount else 0.0) + TotalFunding(events[1..])
  }

  /** Over any history, cash plus cost basis minus realized PnL moves only by funding. */
  lemma {:induction false} AccountingIdentity(perp: bool, b: Books, events: seq<Event>)
    requires Processable(perp, events)
    requires !perp ==> LongOnly(b)
    ensures PaidIn(Replay(perp, b, events)) == PaidIn(b) + TotalFunding(events)
    ensures !perp ==> LongOnly(Replay(perp, b, events))
    decreases |events|
  {
    if events != [] {
      var e := events[0];
      assert e in events;
      match e {
        case Funding(_) =>
        case Trade(f) =>
          if perp && ApplyPerp(b, f, false).Success? {
            PerpKeepsIdentity(b, f, false);
          } else if !perp && ApplySpot(b, f).Success? {
            SpotKeepsIdentity(b, f);
          }
        case Liquidation(f) =>
          PerpKeepsIdentity(b, f, true);
      }
      AccountingIdentity(perp, Process(perp, b, e), events[1..]);
    }
  }

  // ----- flips -----

  /** The two fills a flip stands for: close what is held, open the rest, fee pro rata. */
  function ClosingPart(pos: Position, f: Fill): Fill
    requires f.size > 0.0
  {
    var closing := ClosingSize(pos, f);
    f.(size := closing, fee := Share(f.fee, closing, f.size))
  }

  function OpeningPart(pos: Position, f: Fill): Fill
    requires f.size > 0.0
  {
    var rest := f.size - ClosingSize(pos, f);
    f.(size := rest, fee := Share(f.fee, rest, f.size))
  }

  predicate Flips(pos: Position, f: Fill) {
    if f.side.Sell? then 0.0 < pos.size < f.size else 0.0 < -pos.size < f.size
  }

  /** A flip and its two parts leave the same position and realize the same PnL. */
  lemma FlipLegs(pos: Position, f: Fill)
    requires f.size > 0.0 && Flips(pos, f)
    ensures var (after, realized) := PerpMove(pos, f);
            var first := PerpMove(pos, ClosingPart(pos, f));
            var second := PerpMove(first.0, OpeningPart(pos, f));
            first.0 == FLAT && second.0 == after && first.1 == realized && second.1 == 0.0
  {
    var a, o := ClosingPart(pos, f), OpeningPart(pos, f);
    SelfShare(a.fee, a.size);
    SelfShare(o.fee, o.size);
    NoShare(a.fee, 0.0, a.size);
    NoShare(o.fee, 0.0, o.size);
    assert PerpMove(pos, a) == Legs(pos, f.side, a.size, 0.0, f.price, a.fee, 0.0, f.ts);
    assert PerpMove(FLAT, o) == Legs(FLAT, f.side, 0.0, o.size, f.price, 0.0, o.fee, f.ts);
  }

  lemma FlipCash(pos: Position, f: Fill)
    requires f.size > 0.0 && Flips(pos, f) && f.price * f.size + f.fee >= 0.0
    ensures CashDelta(ClosingPart(pos, f)) + CashDelta(OpeningPart(pos, f)) == CashDelta(f)
    ensures f.side.Buy? ==> CashDelta(f) <= CashDelta(ClosingPart(pos, f))
  {
    var a, o := ClosingPart(pos, f), OpeningPart(pos, f);
    FeeSplit(f.fee, a.size, o.size, f.size);
    Distribute(a.size, o.size, f.price);
    CostShare(f.price, f.fee, a.size, f.size);
  }

  /** A flip is accepted exactly when its two parts are, with the same outcome,
      for every fill that costs something (a rebate beyond the notional does not occur). */
  lemma FlipIsCloseThenOpen(b: Books, f: Fill, force: bool)
    requires f.size > 0.0 && Flips(PositionOf(b, f.pair), f)
    requires f.price * f.size + f.fee >= 0.0
    ensures var pos := PositionOf(b, f.pair);
            var whole := ApplyPerp(b, f, force);
            var first := ApplyPerp(b, ClosingPart(pos, f), force);
            && (whole.Success? ==> first.Success?)
            && (first.Success? ==>
                 var second := ApplyPerp(first.value.books, OpeningPart(pos, f), force);
                 && (whole.Success? <==> second.Success?)
                 && (whole.Success? ==>
                      && second.value.books == whole.value.books
                      && first.value.realized + second.value.realized == whole.value.realized))
  {
    var pos := PositionOf(b, f.pair);
    FlipLegs(pos, f);
    FlipCash(pos, f);
    var whole, first := ApplyPerp(b, f, force), ApplyPerp(b, ClosingPart(pos, f), force);
    if first.Success? {
      var second := ApplyPerp(first.value.books, OpeningPart(pos, f), force);
      if whole.Success? && second.Success? {
        assert second.value.books.positions == whole.value.books.positions;
      }
    }
  }

  lemma SelfShare(fee: real, size: real)
    requires size > 0.0
    ensures Share(fee, size, size) == fee
  {
    assert size / size == 1.0;
  }

  /** One leg of a fill costs no more than the fill. */
  lemma CostShare(price: real, fee: real, part: real, total: real)
    requires 0.0 < part <= total && price * total + fee >= 0.0
    ensures price * part + Share(fee, part, total) <= price * total + fee
  {
    var share := part / total;
    CancelDivision(part, total);
    assert price * part == price * total * share;
    Distribute(price * total, fee, share);
    ShareIsLess(price * total + fee, share);
  }

  lemma ShareIsLess(cost: real, share: real)
    requires cost >= 0.0 && share <= 1.0
    ensures cost * share <= cost
  {}
}
