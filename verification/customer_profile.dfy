/**
 * The two folds of the customer profile page: the active points balance,
 * computed on the client from the customer's points history, and the
 * lifetime spend, summed over the customer's transactions.
 *
 * Times are integer timestamps (milliseconds); the parsing done by
 * `new Date(...)` is not modelled.
 */
module CustomerProfile {
  import opened Wrappers

  /** One entry of the points history: points earned at one time, with their own expiry. */
  datatype Lot = Lot(points: int, redeemed: bool, expiresAt: int)

  /** An entry counts towards the balance when it is not redeemed and expires strictly after `now`. */
  predicate IsLive(l: Lot, now: int) {
    !l.redeemed && l.expiresAt > now
  }

  /** What one entry adds to the balance. */
  function Contribution(l: Lot, now: int): int {
    if IsLive(l, now) then l.points else 0
  }

  /** The `filter` step: the live entries, each as often as it occurs in the history. */
  function LiveLots(lots: seq<Lot>, now: int): (r: seq<Lot>)
    ensures |r| <= |lots|
    ensures forall i :: 0 <= i < |r| ==> IsLive(r[i], now)
    ensures forall l :: multiset(r)[l] == if IsLive(l, now) then multiset(lots)[l] else 0
  {
    if |lots| == 0 then []
    else
      var init := lots[..|lots| - 1];
      var last := lots[|lots| - 1];
      assert lots == init + [last];
      if IsLive(last, now) then LiveLots(init, now) + [last] else LiveLots(init, now)
  }

  /** The `reduce` step: the points of a sequence of entries, added from the left starting at 0. */
  function SumPoints(lots: seq<Lot>): int {
    if |lots| == 0 then 0 else SumPoints(lots[..|lots| - 1]) + lots[|lots| - 1].points
  }

  /**
   * The balance rule stated on its own: every entry of the history adds its
   * points when it is live and nothing otherwise.
   */
  function ActivePoints(lots: seq<Lot>, now: int): int {
    if |lots| == 0 then 0 else ActivePoints(lots[..|lots| - 1], now) + Contribution(lots[|lots| - 1], now)
  }

  /**
   * `calculateActivePoints`: a missing history gives 0; otherwise the live
   * entries are filtered out and their points summed.
   */
  function CalculateActivePoints(history: Option<seq<Lot>>, now: int): (r: int)
    ensures history.None? ==> r == 0
    ensures history.Some? ==> r == ActivePoints(history.value, now)
  {
    match history
    case None => 0
    case Some(lots) =>
      FilterThenSum(lots, now);
      SumPoints(LiveLots(lots, now))
  }

  /** Filtering the live entries and summing them gives the balance rule. */
  lemma {:induction false} FilterThenSum(lots: seq<Lot>, now: int)
    ensures SumPoints(LiveLots(lots, now)) == ActivePoints(lots, now)
  {
    if |lots| > 0 {
      var init := lots[..|lots| - 1];
      var last := lots[|lots| - 1];
      FilterThenSum(init, now);
      if IsLive(last, now) {
        var f := LiveLots(init, now) + [last];
        assert f[..|f| - 1] == LiveLots(init, now);
      }
    }
  }

  /** The balance of two histories placed one after the other is the sum of their balances. */
  lemma {:induction false} ActivePointsAppend(a: seq<Lot>, b: seq<Lot>, now: int)
    ensures ActivePoints(a + b, now) == ActivePoints(a, now) + ActivePoints(b, now)
  {
    if |b| == 0 {
      assert a + b == a;
    } else {
      var init := b[..|b| - 1];
      assert (a + b)[..|a + b| - 1] == a + init;
      ActivePointsAppend(a, init, now);
    }
  }

  /** The balance of a one-entry history is that entry's contribution. */
  lemma ActivePointsSingle(l: Lot, now: int)
    ensures ActivePoints([l], now) == Contribution(l, now)
  {
  }

  /**
   * A redeemed entry, or one whose expiry is at or before `now`, contributes
   * nothing wherever it sits in the history.
   */
  lemma DeadEntryIgnored(a: seq<Lot>, l: Lot, b: seq<Lot>, now: int)
    requires l.redeemed || l.expiresAt <= now
    ensures ActivePoints(a + [l] + b, now) == ActivePoints(a + b, now)
  {
    ActivePointsAppend(a + [l], b, now);
    ActivePointsAppend(a, [l], now);
    ActivePointsAppend(a, b, now);
    ActivePointsSingle(l, now);
  }

  /** A live entry raises the balance by exactly its points, wherever it sits in the history. */
  lemma LiveEntryAdds(a: seq<Lot>, l: Lot, b: seq<Lot>, now: int)
    requires !l.redeemed && l.expiresAt > now
    ensures ActivePoints(a + [l] + b, now) == ActivePoints(a + b, now) + l.points
  {
    ActivePointsAppend(a + [l], b, now);
    ActivePointsAppend(a, [l], now);
    ActivePointsAppend(a, b, now);
    ActivePointsSingle(l, now);
  }

  /** Appending an entry changes the balance by its points if it is live and leaves it unchanged otherwise. */
  lemma AppendEntry(lots: seq<Lot>, l: Lot, now: int)
    ensures IsLive(l, now) ==> ActivePoints(lots + [l], now) == ActivePoints(lots, now) + l.points
    ensures !IsLive(l, now) ==> ActivePoints(lots + [l], now) == ActivePoints(lots, now)
  {
  }

  /** With no negative entries, the balance lies between 0 and the points of the whole history. */
  lemma {:induction false} ActivePointsBounded(lots: seq<Lot>, now: int)
    requires forall i :: 0 <= i < |lots| ==> lots[i].points >= 0
    ensures 0 <= ActivePoints(lots, now) <= SumPoints(lots)
  {
    if |lots| > 0 {
      ActivePointsBounded(lots[..|lots| - 1], now);
    }
  }

  /** The balance does not depend on the order of the history's entries. */
  lemma {:induction false} ActivePointsOrderFree(a: seq<Lot>, b: seq<Lot>, now: int)
    requires multiset(a) == multiset(b)
    ensures ActivePoints(a, now) == ActivePoints(b, now)
  {
    if |a| > 0 {
      var init := a[..|a| - 1];
      var last := a[|a| - 1];
      assert a == init + [last];
      assert last in multiset(b);
      var j :| 0 <= j < |b| && b[j] == last;
      assert b == b[..j] + [last] + b[j + 1..];
      var rest := b[..j] + b[j + 1..];
      assert multiset(b) == multiset(rest) + multiset{last} by {
        assert multiset(b) == multiset(b[..j]) + multiset{last} + multiset(b[j + 1..]);
        assert multiset(rest) == multiset(b[..j]) + multiset(b[j + 1..]);
      }
      assert multiset(a) == multiset(init) + multiset{last};
      assert multiset(init) == multiset(a) - multiset{last};
      assert multiset(rest) == multiset(b) - multiset{last};
      ActivePointsOrderFree(init, rest, now);
      ActivePointsAppend(init, [last], now);
      ActivePointsSingle(last, now);
      ActivePointsAppend(b[..j] + [last], b[j + 1..], now);
      ActivePointsAppend(b[..j], [last], now);
      ActivePointsAppend(b[..j], b[j + 1..], now);
    } else {
      assert |b| == |multiset(b)|;
    }
  }

  /** With no negative entries, the balance can only fall as time passes. */
  lemma {:induction false} ActivePointsFallOverTime(lots: seq<Lot>, earlier: int, later: int)
    requires earlier <= later
    requires forall i :: 0 <= i < |lots| ==> lots[i].points >= 0
    ensures ActivePoints(lots, later) <= ActivePoints(lots, earlier)
  {
    if |lots| > 0 {
      ActivePointsFallOverTime(lots[..|lots| - 1], earlier, later);
    }
  }

  /** One transaction of the history; only its amount is read here. */
  datatype Transaction = Transaction(amount: Option<int>)

  /** `tx.amount || 0`: a missing amount counts as 0 (an amount of 0 is 0 either way). */
  function SpendOf(tx: Transaction): (r: int)
    ensures tx.amount.None? ==> r == 0
    ensures tx.amount.Some? ==> r == tx.amount.value
  {
    match tx.amount
    case Some(a) => if a != 0 then a else 0
    case None => 0
  }

  /** The `reduce` over transactions, added from the left starting at 0. */
  function SumSpend(txs: seq<Transaction>): int {
    if |txs| == 0 then 0 else SumSpend(txs[..|txs| - 1]) + SpendOf(txs[|txs| - 1])
  }

  /** `transactions || []` followed by the sum: a missing list gives 0. */
  function LifetimeSpend(transactions: Option<seq<Transaction>>): (r: int)
    ensures transactions.None? ==> r == 0
    ensures transactions == Some([]) ==> r == 0
  {
    SumSpend(transactions.GetOr([]))
  }

  /** The amounts of the transactions that carry one, in order. */
  function PresentAmounts(txs: seq<Transaction>): seq<int> {
    if |txs| == 0 then []
    else
      var rest := PresentAmounts(txs[1..]);
      match txs[0].amount
      case Some(a) => [a] + rest
      case None => rest
  }

  /** The sum of a sequence of integers, from the front. */
  function Sum(xs: seq<int>): int {
    if |xs| == 0 then 0 else xs[0] + Sum(xs[1..])
  }

  /** Lifetime spend is the sum of the amounts that are present; missing amounts add nothing. */
  lemma {:induction false} LifetimeSpendIsSumOfAmounts(txs: seq<Transaction>)
    ensures LifetimeSpend(Some(txs)) == Sum(PresentAmounts(txs))
  {
    SumSpendFromFront(txs);
  }

  /** The left fold agrees with the sum of present amounts taken from the front. */
  lemma {:induction false} SumSpendFromFront(txs: seq<Transaction>)
    ensures SumSpend(txs) == Sum(PresentAmounts(txs))
  {
    if |txs| > 0 {
      SumSpendFromFront(txs[1..]);
      SumSpendSplit([txs[0]], txs[1..]);
      assert [txs[0]] + txs[1..] == txs;
      assert [txs[0]][..0] == [];
    }
  }

  /** The spend of two lists placed one after the other is the sum of their spends. */
  lemma {:induction false} SumSpendSplit(a: seq<Transaction>, b: seq<Transaction>)
    ensures SumSpend(a + b) == SumSpend(a) + SumSpend(b)
  {
    if |b| == 0 {
      assert a + b == a;
    } else {
      assert (a + b)[..|a + b| - 1] == a + b[..|b| - 1];
      SumSpendSplit(a, b[..|b| - 1]);
    }
  }

  /** With no negative amounts, lifetime spend is never negative and never below any single amount. */
  lemma {:induction false} LifetimeSpendCoversEachAmount(txs: seq<Transaction>, k: nat)
    requires forall i :: 0 <= i < |txs| ==> SpendOf(txs[i]) >= 0
    requires k < |txs|
    ensures 0 <= SpendOf(txs[k]) <= LifetimeSpend(Some(txs))
  {
    var init := txs[..|txs| - 1];
    NonNegativeSpend(init);
    if k < |txs| - 1 {
      LifetimeSpendCoversEachAmount(init, k);
    }
  }

  lemma {:induction false} NonNegativeSpend(txs: seq<Transaction>)
    requires forall i :: 0 <= i < |txs| ==> SpendOf(txs[i]) >= 0
    ensures SumSpend(txs) >= 0
  {
    if |txs| > 0 {
      NonNegativeSpend(txs[..|txs| - 1]);
    }
  }
}
