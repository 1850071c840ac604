/** The dashboard: the figures derived from the ledger and the transaction
    history listed newest first. */
module Dashboard {
  import opened InvestmentContext

  /** What the holding is worth at the latest price. */
  function CurrentGoldValue(s: State): (r: real)
    ensures s.totalGold >= 0.0 && s.latestGoldPrice >= 0.0 ==> r >= 0.0
    ensures s.totalGold == 0.0 || s.latestGoldPrice == 0.0 ==> r == 0.0
  {
    s.totalGold * s.latestGoldPrice
  }

  /** Money paid for gold over the whole history. The figure does not depend
      on the order the history table has put the transactions in; over
      positive purchases it is never negative, and it is zero exactly when
      nothing has been bought. */
  function TotalInvested(s: State): (r: real)
    ensures r == TotalSpent(History(s.transactions))
    ensures AllPositive(s.transactions) ==> r >= 0.0 && (r == 0.0 <==> |s.transactions| == 0)
  {
    HistoryKeepsTotals(s.transactions);
    if AllPositive(s.transactions) then
      PositiveTotals(s.transactions);
      TotalSpent(s.transactions)
    else
      TotalSpent(s.transactions)
  }

  /** The profit or loss shown: nothing is claimed without a latest price. */
  function ProfitLoss(s: State): (r: real)
    ensures s.latestGoldPrice <= 0.0 ==> r == 0.0
    ensures s.latestGoldPrice > 0.0 ==> r + TotalInvested(s) == CurrentGoldValue(s)
  {
    if s.latestGoldPrice > 0.0 then CurrentGoldValue(s) - TotalInvested(s) else 0.0
  }

  // ---------------------------------------------------------------------------
  // History, newest first

  /** The comparator `b.date - a.date` puts `a` no later than `b` when `a` is no older. */
  predicate NewestFirst(txs: seq<Transaction>) {
    forall i, j :: 0 <= i < j < |txs| ==> DayKey(txs[i].date) >= DayKey(txs[j].date)
  }

  /** A transaction no older than the head of a newest-first list may go in front of it. */
  lemma PrependNewest(x: Transaction, txs: seq<Transaction>)
    requires NewestFirst(txs)
    requires |txs| > 0 ==> DayKey(x.date) >= DayKey(txs[0].date)
    ensures NewestFirst([x] + txs)
  {
  }

  /** Places `t` in a newest-first list, ahead of every entry of the same date. */
  function Insert(t: Transaction, sorted: seq<Transaction>): (r: seq<Transaction>)
    requires NewestFirst(sorted)
    ensures NewestFirst(r)
    ensures multiset(r) == multiset(sorted) + multiset{t}
    ensures |r| == |sorted| + 1
    ensures r[0] == t || (|sorted| > 0 && r[0] == sorted[0])
  {
    if |sorted| == 0 || DayKey(t.date) >= DayKey(sorted[0].date) then
      PrependNewest(t, sorted);
      [t] + sorted
    else
      var rest := Insert(t, sorted[1..]);
      PrependNewest(sorted[0], rest);
      assert sorted == [sorted[0]] + sorted[1..];
      [sorted[0]] + rest
  }

  /** The history table's order (`transactions.sort(...)`): the same
      transactions, newest date first. */
  function History(txs: seq<Transaction>): (r: seq<Transaction>)
    ensures NewestFirst(r)
    ensures multiset(r) == multiset(txs)
  {
    if |txs| == 0 then []
    else
      assert txs == [txs[0]] + txs[1..];
      Insert(txs[0], History(txs[1..]))
  }

  lemma {:induction false} TotalsPrepend(t: Transaction, txs: seq<Transaction>)
    ensures TotalSpent([t] + txs) == t.amountSpent + TotalSpent(txs)
    ensures TotalGrams([t] + txs) == t.goldAmount + TotalGrams(txs)
    decreases |txs|
  {
    if |txs| > 0 {
      var init := txs[..|txs| - 1];
      var last := txs[|txs| - 1];
      assert txs == init + [last];
      assert [t] + txs == ([t] + init) + [last];
      TotalsAppend([t] + init, last);
      TotalsAppend(init, last);
      TotalsPrepend(t, init);
    } else {
      assert [t] + txs == [] + [t];
      TotalsAppend([], t);
    }
  }

  lemma {:induction false} InsertKeepsTotals(t: Transaction, sorted: seq<Transaction>)
    requires NewestFirst(sorted)
    ensures TotalSpent(Insert(t, sorted)) == t.amountSpent + TotalSpent(sorted)
    ensures TotalGrams(Insert(t, sorted)) == t.goldAmount + TotalGrams(sorted)
    decreases |sorted|
  {
    if |sorted| == 0 || DayKey(t.date) >= DayKey(sorted[0].date) {
      TotalsPrepend(t, sorted);
    } else {
      var rest := Insert(t, sorted[1..]);
      InsertKeepsTotals(t, sorted[1..]);
      TotalsPrepend(sorted[0], rest);
      TotalsPrepend(sorted[0], sorted[1..]);
      assert sorted == [sorted[0]] + sorted[1..];
    }
  }

  /** Reordering the history changes neither the money invested nor the
      grams held, so the in-place sort of the table cannot disturb the
      ledger's totals. */
  lemma {:induction false} HistoryKeepsTotals(txs: seq<Transaction>)
    ensures TotalSpent(History(txs)) == TotalSpent(txs)
    ensures TotalGrams(History(txs)) == TotalGrams(txs)
    decreases |txs|
  {
    if |txs| > 0 {
      var first, others := txs[0], txs[1..];
      var rest := History(others);
      assert History(txs) == Insert(first, rest);
      HistoryKeepsTotals(others);
      InsertKeepsTotals(first, rest);
      TotalsPrepend(first, others);
      assert [first] + others == txs;
    }
  }
}
