/** When a live run may start: the account against what the chain itself did to it
    (kaupo/core/live_reconcile.py:287-310).

    The account is described by what happened to it, not by what the books say: what it held when
    the chain began, what the chain's fills moved, and whatever else came or went. */
module StartRules {
  import opened Domain
  import opened Accounting
  import opened LiveReconcile
  import Resume
  import Sums

  /** What fills move in one pair: bought less sold. */
  function Bought(fills: seq<Fill>, pair: Pair): real {
    if fills == [] then 0.0
    else
      var f := fills[0];
      (if f.pair != pair then 0.0 else if f.side == Buy then f.size else 0.0 - f.size) + Bought(fills[1..], pair)
  }

  /** What fills move in quote: proceeds less outlay, and every fee. */
  function Received(fills: seq<Fill>): real {
    if fills == [] then 0.0
    else
      var f := fills[0];
      (if f.side == Sell then f.price * f.size else 0.0 - f.price * f.size) - f.fee + Received(fills[1..])
  }

  lemma {:induction false} BoughtIsTotal(fills: seq<Fill>, pair: Pair)
    ensures Bought(fills, pair) == Sums.Total(fills, Resume.DeltaOn(pair))
  {
    if fills != [] {
      BoughtIsTotal(fills[1..], pair);
    }
  }

  lemma {:induction false} ReceivedIsTotal(fills: seq<Fill>)
    ensures Received(fills) == Sums.Total(fills, Resume.CashMoves())
  {
    if fills != [] {
      ReceivedIsTotal(fills[1..]);
    }
  }

  lemma {:induction false} SignedIsBought(fills: seq<Fill>, pair: Pair)
    requires forall f :: f in fills ==> f.pair == pair
    ensures Bought(fills, pair) == Sums.Total(fills, SignedSizes())
  {
    if fills != [] {
      SignedIsBought(fills[1..], pair);
    }
  }

  /** The chain so far: the ledger it opened with, the fills it recorded, the fills the exchange has on
      top of them, and what reached the account from elsewhere. */
  datatype Chain = Chain(opening: Books, recorded: seq<Fill>, missed: seq<Fill>, strayBase: real, strayQuote: real)

  /** The account holds what the chain opened with, moved by its fills and by the strays. */
  predicate AccountOf(ch: Chain, balances: map<string, real>, pair: Pair, baseline: real) {
    && pair.base in balances && pair.quote in balances
    && balances[pair.base] == PositionOf(ch.opening, pair).size + Bought(ch.recorded, pair) + Bought(ch.missed, pair)
                              + ch.strayBase
    && balances[pair.quote] == baseline + Received(ch.recorded) + Received(ch.missed) + ch.strayQuote
  }

  ghost predicate Orderly(ch: Chain, pair: Pair) {
    && LongOnly(ch.opening) && Resume.NotNegative(ch.recorded)
    && ReplayFills(ch.opening, ch.recorded).Success?
    && (forall f :: f in ch.missed ==> f.pair == pair)
  }

  lemma {:induction false} CarriedIs(ch: Chain, pair: Pair)
    requires Orderly(ch, pair)
    ensures var books := ReplayFills(ch.opening, ch.recorded).value;
            && PositionOf(books, pair).size + Sums.Total(ch.missed, SignedSizes())
               == PositionOf(ch.opening, pair).size + Bought(ch.recorded, pair) + Bought(ch.missed, pair)
            && books.cash + Sums.Total(ch.missed, Resume.CashMoves())
               == ch.opening.cash + Received(ch.recorded) + Received(ch.missed)
  {
    Resume.ReplayTotals(ch.opening, ch.recorded);
    BoughtIsTotal(ch.recorded, pair);
    ReceivedIsTotal(ch.recorded);
    SignedIsBought(ch.missed, pair);
    ReceivedIsTotal(ch.missed);
  }

  /** The chain's own fills, recorded or recovered, never keep a run from starting; what reached the
      account from elsewhere does exactly when it is more than dust: 0.000001 of the base, and one
      unit of the quote wherever the quote is checked and the chain has a baseline. */
  lemma OnlyStraysRefuse(ch: Chain, balances: map<string, real>, pair: Pair, checkQuote: bool,
                         baseline: real, known: bool)
    requires Orderly(ch, pair) && AccountOf(ch, balances, pair, baseline)
    ensures var books := ReplayFills(ch.opening, ch.recorded).value;
            var base := if known then Some(baseline) else None;
            (MayStart(books, ch.missed, balances, pair, checkQuote, base, Some(ch.opening.cash))
             <==> -0.000001 <= ch.strayBase <= 0.000001
                  && (checkQuote && known ==> -1.0 <= ch.strayQuote <= 1.0))
  {
    CarriedIs(ch, pair);
  }

  /** A refusal names exactly what came from elsewhere. */
  lemma RefusalNamesTheStrays(ch: Chain, balances: map<string, real>, pair: Pair, baseline: real, refusal: Refusal)
    requires Orderly(ch, pair) && AccountOf(ch, balances, pair, baseline)
    requires DriftIs(refusal, ReplayFills(ch.opening, ch.recorded).value, ch.missed, balances, pair, Some(baseline),
                     Some(ch.opening.cash))
    ensures refusal == Drift(ch.strayBase, ch.strayQuote)
  {
    CarriedIs(ch, pair);
  }

  /** An account that does not list an asset holds none of it: with books that carry some the run
      does not start. */
  lemma {:induction false} UnlistedBaseRefuses(ch: Chain, balances: map<string, real>, pair: Pair, checkQuote: bool,
                                               base: Option<real>, cash: Option<real>)
    requires Orderly(ch, pair) && pair.base !in balances
    ensures var books := ReplayFills(ch.opening, ch.recorded).value;
            var carried := PositionOf(ch.opening, pair).size + Bought(ch.recorded, pair) + Bought(ch.missed, pair);
            carried > 0.000001 ==> !MayStart(books, ch.missed, balances, pair, checkQuote, base, cash)
  {
    CarriedIs(ch, pair);
  }
}
