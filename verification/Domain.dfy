/** Core domain types shared by every execution mode (kaupo/domain.py).

    Money and sizes are exact reals: the program converts floats to Decimal at
    the boundary, and rounding is not part of this model. Instants are integers.
 */
module Domain {

  datatype Option<+T> = None | Some(value: T) {
    function GetOr(default: T): T {
      if Some? then value else default
    }
  }

  datatype Result<+T, +E> = Success(value: T) | Failure(error: E)

  datatype Pair = Pair(base: string, quote: string)

  datatype Side = Buy | Sell

  datatype OrderType = Market | Limit

  datatype OrderStatus = Open | Filled | Cancelled | Rejected

  /** Which fee tier a fill paid; Mixed when its trades disagree. */
  datatype Tier = Maker | Taker | Mixed

  type Txid = nat

  /** Platform ids are handed out by a counter; a trade of an order this
      platform did not place is filed under an id derived from its txid. */
  datatype OrderId = Local(n: nat) | Unattributed(txid: Txid)

  datatype Candle = Candle(pair: Pair, ts: int, seconds: int, open: real, high: real, low: real, close: real)

  /** What a candle's prices satisfy on any market. */
  predicate ValidCandle(c: Candle) {
    && 0.0 < c.low <= c.open <= c.high
    && c.low <= c.close <= c.high
    && c.seconds > 0
  }

  datatype Fill = Fill(orderId: OrderId, pair: Pair, side: Side, ts: int,
                       price: real, size: real, fee: real, tier: Option<Tier>)

  /** A position and the fill time that opened it from flat. */
  datatype Position = Position(size: real, avgEntry: real, entryTs: Option<int>)

  const FLAT := Position(0.0, 0.0, None)

  function Cost(pos: Position): real {
    pos.size * pos.avgEntry
  }

  function Worth(pos: Position, price: real): real {
    pos.size * price
  }

  /** What a strategy asks for; OrderIntent.__post_init__ enforces ValidIntent. */
  datatype OrderIntent = OrderIntent(pair: Pair, side: Side, size: real, limitPrice: Option<real>,
                                     stopLoss: Option<real>, takeProfit: Option<real>)

  predicate ValidIntent(i: OrderIntent) {
    i.size > 0.0 && (i.limitPrice.Some? ==> i.limitPrice.value > 0.0)
  }

  function Min(x: real, y: real): real {
    if x <= y then x else y
  }

  function Max(x: real, y: real): real {
    if x >= y then x else y
  }

  function Abs(x: real): real {
    if x >= 0.0 then x else -x
  }

  /** What a fill adds to the position in `pair`. */
  function Delta(f: Fill, pair: Pair): real {
    if f.pair != pair then 0.0 else if f.side.Buy? then f.size else -f.size
  }

  function NetDelta(fills: seq<Fill>, pair: Pair): real {
    if fills == [] then 0.0 else Delta(fills[0], pair) + NetDelta(fills[1..], pair)
  }

  lemma {:induction false} NetDeltaAppend(a: seq<Fill>, b: seq<Fill>, pair: Pair)
    ensures NetDelta(a + b, pair) == NetDelta(a, pair) + NetDelta(b, pair)
  {
    if a == [] {
      assert a + b == b;
    } else {
      assert (a + b)[1..] == a[1..] + b;
      NetDeltaAppend(a[1..], b, pair);
    }
  }
}
