/** Which fills a ledger accepts, told from running totals (kaupo/ledger/ledger.py). */
module Acceptance {
  import opened Domain
  import opened Accounting
  import opened StartRules

  predicate Sizable(perp: bool, fills: seq<Fill>) {
    perp ==> forall f :: f in fills ==> f.size > 0.0
  }

  /** The ledger takes them one after the other. */
  predicate AllAccepted(perp: bool, b: Books, fills: seq<Fill>)
    requires Sizable(perp, fills)
    decreases |fills|
  {
    fills == []
    || match Fills(perp, b, fills[0], false)
       case Failure(_) => false
       case Success(a) => AllAccepted(perp, a.books, fills[1..])
  }

  /** Fill k has what it needs after those before it: a buy the cash for its price and fee, a spot
      sell the position. A perp sell needs nothing. */
  predicate HasWhatItNeeds(perp: bool, b: Books, fills: seq<Fill>, k: nat)
    requires k < |fills|
  {
    var f := fills[k];
    && (f.side == Buy ==> f.price * f.size + f.fee <= b.cash + Received(fills[..k]))
    && (f.side == Sell && !perp ==> f.size <= PositionOf(b, f.pair).size + Bought(fills[..k], f.pair))
  }

  /** What a buy costs. */
  lemma BuyNeeds(b: Books, f: Fill)
    requires f.side == Buy
    ensures -CashDelta(f) <= b.cash <==> f.price * f.size + f.fee <= b.cash
  {}

  /** One fill needs what the books of the moment have. */
  predicate Affords(perp: bool, b: Books, f: Fill) {
    && (f.side == Buy ==> f.price * f.size + f.fee <= b.cash)
    && (f.side == Sell && !perp ==> f.size <= PositionOf(b, f.pair).size)
  }

  lemma AcceptedWhenAfforded(perp: bool, b: Books, f: Fill)
    requires perp ==> f.size > 0.0
    ensures Fills(perp, b, f, false).Success? <==> Affords(perp, b, f)
  {
    if f.side == Buy {
      BuyNeeds(b, f);
    }
    if perp {
      assert Fills(perp, b, f, false) == ApplyPerp(b, f, false);
    } else {
      assert Fills(perp, b, f, false) == ApplySpot(b, f);
    }
  }

  lemma FirstNeeds(perp: bool, b: Books, fills: seq<Fill>)
    requires fills != []
    ensures HasWhatItNeeds(perp, b, fills, 0) <==> Affords(perp, b, fills[0])
  {
    var none := fills[..0];
    assert none == [] && Received(none) == 0.0 && Bought(none, fills[0].pair) == 0.0;
  }

  lemma OneReceived(f: Fill)
    ensures Received([f]) == CashDelta(f) && forall p :: Bought([f], p) == Delta(f, p)
  {
    assert [f][1..] == [];
  }

  lemma FirstMoves(perp: bool, b: Books, f: Fill)
    requires perp ==> f.size > 0.0
    requires Fills(perp, b, f, false).Success?
    ensures var after := Fills(perp, b, f, false).value.books;
            && after.cash == b.cash + Received([f])
            && forall p :: PositionOf(after, p).size == PositionOf(b, p).size + Bought([f], p)
  {
    SizeAfter(perp, b, f, false);
    OneReceived(f);
  }

  lemma LaterNeeds(perp: bool, b: Books, after: Books, fills: seq<Fill>, k: nat)
    requires fills != [] && k < |fills| - 1
    requires after.cash == b.cash + Received([fills[0]])
    requires forall p :: PositionOf(after, p).size == PositionOf(b, p).size + Bought([fills[0]], p)
    ensures HasWhatItNeeds(perp, b, fills, k + 1) <==> HasWhatItNeeds(perp, after, fills[1..], k)
  {
    var f, g := fills[0], fills[k + 1];
    assert fills[..k + 1][1..] == fills[1..][..k] && [f][1..] == [];
    assert Received(fills[..k + 1]) == Received([f]) + Received(fills[1..][..k]);
    assert Bought(fills[..k + 1], g.pair) == Bought([f], g.pair) + Bought(fills[1..][..k], g.pair);
  }

  /** A list of fills is accepted if and only if each finds what it needs in the running totals of the
      cash and the sizes that the fills before it moved. */
  lemma {:induction false} AcceptedExactly(perp: bool, b: Books, fills: seq<Fill>)
    requires Sizable(perp, fills)
    ensures AllAccepted(perp, b, fills) <==> forall k :: 0 <= k < |fills| ==> HasWhatItNeeds(perp, b, fills, k)
    decreases |fills|
  {
    if fills != [] {
      AcceptedWhenAfforded(perp, b, fills[0]);
      FirstNeeds(perp, b, fills);
      if Fills(perp, b, fills[0], false).Success? {
        var after := Fills(perp, b, fills[0], false).value.books;
        FirstMoves(perp, b, fills[0]);
        AcceptedExactly(perp, after, fills[1..]);
        forall k | 0 <= k < |fills| - 1
          ensures HasWhatItNeeds(perp, b, fills, k + 1) <==> HasWhatItNeeds(perp, after, fills[1..], k)
        {
          LaterNeeds(perp, b, after, fills, k);
        }
        ShiftNeeds(perp, b, after, fills);
      }
    }
  }

  lemma ShiftNeeds(perp: bool, b: Books, after: Books, fills: seq<Fill>)
    requires fills != []
    requires forall k :: 0 <= k < |fills| - 1 ==>
        (HasWhatItNeeds(perp, b, fills, k + 1) <==> HasWhatItNeeds(perp, after, fills[1..], k))
    ensures (forall k :: 0 <= k < |fills| ==> HasWhatItNeeds(perp, b, fills, k))
       <==> HasWhatItNeeds(perp, b, fills, 0)
            && forall k :: 0 <= k < |fills[1..]| ==> HasWhatItNeeds(perp, after, fills[1..], k)
  {
    if (forall k :: 0 <= k < |fills[1..]| ==> HasWhatItNeeds(perp, after, fills[1..], k))
       && HasWhatItNeeds(perp, b, fills, 0) {
      forall k | 0 <= k < |fills| ensures HasWhatItNeeds(perp, b, fills, k) {
        if k > 0 {
          assert HasWhatItNeeds(perp, after, fills[1..], k - 1);
          assert HasWhatItNeeds(perp, b, fills, k - 1 + 1);
        }
      }
    }
    if forall k :: 0 <= k < |fills| ==> HasWhatItNeeds(perp, b, fills, k) {
      forall k | 0 <= k < |fills[1..]| ensures HasWhatItNeeds(perp, after, fills[1..], k) {
        assert HasWhatItNeeds(perp, b, fills, k + 1);
      }
    }
  }

  /** The replay of a spot history succeeds exactly then; a forced fill is always accepted. */
  lemma {:induction false} ReplayAccepts(b: Books, fills: seq<Fill>)
    ensures ReplayFills(b, fills).Success? <==> AllAccepted(false, b, fills)
    decreases |fills|
  {
    if fills != [] && ApplySpot(b, fills[0]).Success? {
      ReplayAccepts(ApplySpot(b, fills[0]).value.books, fills[1..]);
    }
  }
}
