/** The invariants of the ledger over every run of the application, and the
    properties of the derived figures that rest on them.

    Two kinds of runs are considered. A run of context calls feeds the
    context's three transitions any arguments at all, interleaved with the
    dashboard's in-place sort of the history; it keeps the ledger
    consistent (grams held match the history, cash never negative, every
    rupiah either in cash or in the history). A run of the user interface
    goes through the forms, which additionally only ever record positive
    purchases and positive prices; on such ledgers the average buy price is
    positive as soon as gold is held, so the recommendation never divides
    by zero.
 */
module LedgerInvariants {
  import opened Inputs
  import opened InvestmentContext
  import AddTransaction
  import PriceTracker
  import SellSimulation
  import Dashboard

  function IdSet(txs: seq<Transaction>): set<Id> {
    set t | t in txs :: t.id
  }

  /** What every ledger reached by context calls satisfies. */
  predicate Consistent(s: State) {
    && s.totalGold == TotalGrams(s.transactions)
    && s.cashBalance >= 0.0
    && s.cashBalance + TotalSpent(s.transactions) == StartingCash
    && IdsPresent(s.transactions)
    && DistinctIds(s.transactions)
  }

  /** What every ledger reached through the forms satisfies in addition. */
  predicate Sound(s: State) {
    && Consistent(s)
    && AllPositive(s.transactions)
    && s.latestGoldPrice >= 0.0
  }

  // ---------------------------------------------------------------------------
  // Runs of context calls

  datatype Call =
    | Seeding(id1: Id, id2: Id)
    | AddTx(purchase: Purchase, newId: Id)
    | UpdatePrice(price: real)
    | SortedInPlace

  /** The dashboard's history table sorts the context's own array in place,
      so showing the dashboard reorders the ledger's transactions. */
  function SortHistory(s: State): State {
    s.(transactions := Dashboard.History(s.transactions))
  }

  function Step(s: State, c: Call): State {
    match c
    case Seeding(id1, id2) => Seed(s, id1, id2)
    case AddTx(p, newId) => InvestmentContext.AddTransaction(s, p, newId)
    case UpdatePrice(price) => UpdateLatestGoldPrice(s, price)
    case SortedInPlace => SortHistory(s)
  }

  /** The ids a call draws are non-empty and collide with no id in the ledger
      (what `crypto.randomUUID` is relied on for). */
  predicate IdsNew(s: State, c: Call) {
    match c
    case Seeding(id1, id2) => id1 != "" && id2 != "" && id1 != id2
    case AddTx(_, newId) => newId != "" && newId !in IdSet(s.transactions)
    case UpdatePrice(_) => true
    case SortedInPlace => true
  }

  function Run(s: State, calls: seq<Call>): State
    decreases |calls|
  {
    if |calls| == 0 then s else Run(Step(s, calls[0]), calls[1..])
  }

  predicate IdsNewAlong(s: State, calls: seq<Call>)
    decreases |calls|
  {
    |calls| == 0 || (IdsNew(s, calls[0]) && IdsNewAlong(Step(s, calls[0]), calls[1..]))
  }

  lemma AddKeepsConsistent(s: State, p: Purchase, newId: Id)
    requires Consistent(s)
    requires newId != "" && newId !in IdSet(s.transactions)
    ensures Consistent(InvestmentContext.AddTransaction(s, p, newId))
  {
  }

  lemma AppendKeepsIds(txs: seq<Transaction>, t: Transaction)
    requires IdsPresent(txs) && DistinctIds(txs)
    requires t.id != "" && t.id !in IdSet(txs)
    ensures IdsPresent(txs + [t]) && DistinctIds(txs + [t])
  {
  }

  lemma SeedKeepsConsistent(s: State, id1: Id, id2: Id)
    requires Consistent(s)
    requires id1 != "" && id2 != "" && id1 != id2
    ensures Consistent(Seed(s, id1, id2))
  {
  }

  /** A transaction whose id is new may go in front of a list of distinct ids. */
  lemma PrependKeepsIds(x: Transaction, txs: seq<Transaction>)
    requires DistinctIds(txs) && x.id !in IdSet(txs)
    ensures DistinctIds([x] + txs)
  {
  }

  lemma {:induction false} InsertKeepsIds(t: Transaction, sorted: seq<Transaction>)
    requires Dashboard.NewestFirst(sorted) && DistinctIds(sorted) && t.id !in IdSet(sorted)
    ensures DistinctIds(Dashboard.Insert(t, sorted))
    decreases |sorted|
  {
    if |sorted| == 0 || DayKey(t.date) >= DayKey(sorted[0].date) {
      PrependKeepsIds(t, sorted);
    } else {
      var first, others := sorted[0], sorted[1..];
      assert sorted == [first] + others;
      var rest := Dashboard.Insert(t, others);
      InsertKeepsIds(t, others);
      forall x | x in rest ensures x.id != first.id {
        assert x in multiset(rest);
        assert x == t || x in multiset(others);
      }
      PrependKeepsIds(first, rest);
    }
  }

  /** Sorting keeps the ids distinct: no two entries of the table share an id. */
  lemma {:induction false} HistoryKeepsIds(txs: seq<Transaction>)
    requires DistinctIds(txs)
    ensures DistinctIds(Dashboard.History(txs))
    decreases |txs|
  {
    if |txs| > 0 {
      var first, others := txs[0], txs[1..];
      assert txs == [first] + others;
      var rest := Dashboard.History(others);
      HistoryKeepsIds(others);
      forall x | x in rest ensures x.id != first.id {
        assert x in multiset(rest);
      }
      InsertKeepsIds(first, rest);
    }
  }

  /** Every entry of the sorted history is an entry of the ledger. */
  lemma HistoryEntries(txs: seq<Transaction>, i: nat)
    requires i < |Dashboard.History(txs)|
    ensures exists k :: 0 <= k < |txs| && txs[k] == Dashboard.History(txs)[i]
  {
    assert Dashboard.History(txs)[i] in multiset(Dashboard.History(txs));
  }

  /** Showing the dashboard reorders the history and keeps the ledger
      consistent: the totals, the ids and their distinctness survive the sort. */
  lemma SortKeepsConsistent(s: State)
    requires Consistent(s)
    ensures Consistent(SortHistory(s))
  {
    var r := Dashboard.History(s.transactions);
    Dashboard.HistoryKeepsTotals(s.transactions);
    HistoryKeepsIds(s.transactions);
    forall i | 0 <= i < |r| ensures r[i].id != "" {
      HistoryEntries(s.transactions, i);
    }
  }

  /** The sort keeps every transaction positive as well. */
  lemma SortKeepsSound(s: State)
    requires Sound(s)
    ensures Sound(SortHistory(s))
  {
    SortKeepsConsistent(s);
    var r := Dashboard.History(s.transactions);
    forall i | 0 <= i < |r| ensures PositiveTransaction(r[i]) {
      HistoryEntries(s.transactions, i);
    }
  }

  lemma StepKeepsConsistent(s: State, c: Call)
    requires Consistent(s) && IdsNew(s, c)
    ensures Consistent(Step(s, c))
  {
    if c.SortedInPlace? {
      SortKeepsConsistent(s);
    }
  }

  lemma {:induction false} RunKeepsConsistent(s: State, calls: seq<Call>)
    requires Consistent(s) && IdsNewAlong(s, calls)
    ensures Consistent(Run(s, calls))
    decreases |calls|
  {
    if |calls| > 0 {
      StepKeepsConsistent(s, calls[0]);
      RunKeepsConsistent(Step(s, calls[0]), calls[1..]);
    }
  }

  /** Every ledger reached from the initial one by context calls is consistent. */
  lemma ReachableConsistent(calls: seq<Call>)
    requires IdsNewAlong(Initial, calls)
    ensures Consistent(Run(Initial, calls))
  {
    RunKeepsConsistent(Initial, calls);
  }

  // ---------------------------------------------------------------------------
  // Runs of the user interface

  datatype Event =
    | SeedEffect(id1: Id, id2: Id)
    | PurchaseSubmitted(form: AddTransaction.Form, newId: Id)
    | PriceSubmitted(input: Field)
    | DashboardShown

  function UiStep(s: State, e: Event): State {
    match e
    case SeedEffect(id1, id2) => Seed(s, id1, id2)
    case PurchaseSubmitted(f, newId) => AddTransaction.Submit(f, s, newId)
    case PriceSubmitted(input) => PriceTracker.SubmitPrice(s, input)
    case DashboardShown => SortHistory(s)
  }

  predicate UiIdsNew(s: State, e: Event) {
    match e
    case SeedEffect(id1, id2) => id1 != "" && id2 != "" && id1 != id2
    case PurchaseSubmitted(_, newId) => newId != "" && newId !in IdSet(s.transactions)
    case PriceSubmitted(_) => true
    case DashboardShown => true
  }

  function UiRun(s: State, events: seq<Event>): State
    decreases |events|
  {
    if |events| == 0 then s else UiRun(UiStep(s, events[0]), events[1..])
  }

  predicate UiIdsNewAlong(s: State, events: seq<Event>)
    decreases |events|
  {
    |events| == 0 || (UiIdsNew(s, events[0]) && UiIdsNewAlong(UiStep(s, events[0]), events[1..]))
  }

  lemma UiStepKeepsSound(s: State, e: Event)
    requires Sound(s) && UiIdsNew(s, e)
    ensures Sound(UiStep(s, e))
  {
    match e
    case SeedEffect(id1, id2) =>
      SeedKeepsConsistent(s, id1, id2);
    case PurchaseSubmitted(f, newId) =>
      if AddTransaction.Check(f, s.cashBalance).Accepted? {
        AddTransaction.AcceptedIsRecorded(f, s, newId);
      }
    case PriceSubmitted(_) =>
    case DashboardShown =>
      SortKeepsSound(s);
  }

  lemma {:induction false} UiRunKeepsSound(s: State, events: seq<Event>)
    requires Sound(s) && UiIdsNewAlong(s, events)
    ensures Sound(UiRun(s, events))
    decreases |events|
  {
    if |events| > 0 {
      UiStepKeepsSound(s, events[0]);
      UiRunKeepsSound(UiStep(s, events[0]), events[1..]);
    }
  }

  /** Every ledger reached from the initial one through the forms is sound. */
  lemma ReachableSound(events: seq<Event>)
    requires UiIdsNewAlong(Initial, events)
    ensures Sound(UiRun(Initial, events))
  {
    UiRunKeepsSound(Initial, events);
  }

  // ---------------------------------------------------------------------------
  // Consequences for the derived figures

  /** On a sound ledger holding gold, the average buy price is positive. */
  lemma AveragePositive(s: State)
    requires Sound(s) && s.totalGold != 0.0
    ensures AverageBuyPrice(s.transactions) > 0.0
  {
    PositiveTotals(s.transactions);
    assert |s.transactions| > 0;
    var avg := AverageBuyPrice(s.transactions);
    assert avg * TotalGrams(s.transactions) == TotalSpent(s.transactions);
  }

  /** On a sound ledger the recommendation's division always has a non-zero
      divisor: every advice carries a finite percentage, and the signal is
      decided by the latest price against 95% and 105% of the average. */
  lemma RecommendationNeverDividesByZero(s: State)
    requires Sound(s)
    ensures PriceTracker.GetRecommendation(s).Advice? ==>
      && PriceTracker.GetRecommendation(s).delta.Finite?
      && (PriceTracker.GetRecommendation(s).signal == PriceTracker.ConsiderSelling <==>
            s.latestGoldPrice * 20.0 >= AverageBuyPrice(s.transactions) * 21.0)
      && (PriceTracker.GetRecommendation(s).signal == PriceTracker.ConsiderBuying <==>
            s.latestGoldPrice * 20.0 <= AverageBuyPrice(s.transactions) * 19.0)
  {
    if PriceTracker.GetRecommendation(s).Advice? {
      AveragePositive(s);
      PriceTracker.SignalThresholds(s.latestGoldPrice, AverageBuyPrice(s.transactions));
    }
  }

  /** The dashboard's total invested is exactly the cash that has left the
      starting balance. */
  lemma InvestedIsCashSpent(s: State)
    requires Consistent(s)
    ensures Dashboard.TotalInvested(s) == StartingCash - s.cashBalance
  {
  }

  /** In a consistent ledger the seeding effect fires exactly when the
      history is empty, so it fires at most once in a run. */
  lemma SeedingFiresOnEmptyHistory(s: State, id1: Id, id2: Id)
    requires Consistent(s)
    ensures ShouldSeed(s) <==> |s.transactions| == 0
    ensures ShouldSeed(s) ==> !ShouldSeed(Seed(s, id1, id2))
  {
  }

  /** Seeding the initial ledger: 600000 cash left, 0.1432 grams held, and an
      average buy price of 350000 / 0.1432 per gram. */
  lemma SeededLedger(id1: Id, id2: Id)
    ensures Seed(Initial, id1, id2).cashBalance == 600000.0
    ensures Seed(Initial, id1, id2).totalGold == 0.1432
    ensures |Seed(Initial, id1, id2).transactions| == 2
    ensures AverageBuyPrice(Seed(Initial, id1, id2).transactions) * 0.1432 == 350000.0
  {
  }

  /** Simulating a sale at the latest price gives the dashboard's profit or
      loss: the two pages agree on a sound ledger holding gold. */
  lemma SimulationAtLatestPriceMatchesDashboard(s: State)
    requires Sound(s) && s.totalGold > 0.0 && s.latestGoldPrice > 0.0
    ensures SellSimulation.Simulate(s, Show(s.latestGoldPrice)).Simulated?
    ensures SellSimulation.Simulate(s, Show(s.latestGoldPrice)).profitLoss == Dashboard.ProfitLoss(s)
  {
  }
}
