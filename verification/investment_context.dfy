/** The investment ledger: the state held by the investment context, its
    transitions (buy, price update, one-shot seeding, load-time defaulting)
    and the average buy price derived from it.

    Money (rupiah) and grams are exact decimals (`real`); identifiers are
    opaque strings supplied by the caller wherever the application draws a
    random UUID.
 */
module InvestmentContext {
  import opened Inputs

  /** A calendar date `YYYY-MM-DD`. */
  datatype Date = Date(year: int, month: int, day: int)

  /** The order of two dates as `new Date(d).getTime()` sees them: for dates
      with month in 1..12 and day in 1..31 the key grows with time. */
  function DayKey(d: Date): int {
    d.year * 10000 + d.month * 100 + d.day
  }

  type Id = string

  /** `type: "buy" | "sell"`; only `Buy` is ever produced. */
  datatype Kind = Buy | Sell

  datatype Transaction = Transaction(
    id: Id,
    date: Date,
    kind: Kind,
    pricePerGram: real,
    amountSpent: real,
    goldAmount: real)

  /** What a caller hands to `addTransaction`: a transaction without id and type. */
  datatype Purchase = Purchase(date: Date, pricePerGram: real, amountSpent: real, goldAmount: real)

  datatype State = State(
    cashBalance: real,
    totalGold: real,
    transactions: seq<Transaction>,
    latestGoldPrice: real)

  /** The starting cash balance of a new ledger. */
  const StartingCash: real := 950000.0

  const Initial: State := State(StartingCash, 0.0, [], 0.0)

  // ---------------------------------------------------------------------------
  // Sums over the transaction list (the `reduce` calls of the source)

  function TotalSpent(txs: seq<Transaction>): real {
    if |txs| == 0 then 0.0 else TotalSpent(txs[..|txs| - 1]) + txs[|txs| - 1].amountSpent
  }

  function TotalGrams(txs: seq<Transaction>): real {
    if |txs| == 0 then 0.0 else TotalGrams(txs[..|txs| - 1]) + txs[|txs| - 1].goldAmount
  }

  lemma TotalsAppend(txs: seq<Transaction>, t: Transaction)
    ensures TotalSpent(txs + [t]) == TotalSpent(txs) + t.amountSpent
    ensures TotalGrams(txs + [t]) == TotalGrams(txs) + t.goldAmount
  {
  }

  lemma TotalsPrefix(txs: seq<Transaction>, i: nat)
    requires i < |txs|
    ensures TotalSpent(txs[..i + 1]) == TotalSpent(txs[..i]) + txs[i].amountSpent
    ensures TotalGrams(txs[..i + 1]) == TotalGrams(txs[..i]) + txs[i].goldAmount
  {
    assert txs[..i + 1][..i] == txs[..i];
  }

  /** A purchase as every form of the application admits it. */
  predicate PositiveTransaction(t: Transaction) {
    t.pricePerGram > 0.0 && t.amountSpent > 0.0 && t.goldAmount > 0.0
  }

  predicate AllPositive(txs: seq<Transaction>) {
    forall i :: 0 <= i < |txs| ==> PositiveTransaction(txs[i])
  }

  /** Over positive transactions both totals are positive as soon as there is one. */
  lemma {:induction false} PositiveTotals(txs: seq<Transaction>)
    requires AllPositive(txs)
    ensures TotalSpent(txs) >= 0.0 && TotalGrams(txs) >= 0.0
    ensures |txs| > 0 ==> TotalSpent(txs) > 0.0 && TotalGrams(txs) > 0.0
  {
    if |txs| > 0 {
      var init := txs[..|txs| - 1];
      assert AllPositive(init) by {
        forall i | 0 <= i < |init| ensures PositiveTransaction(init[i]) {
          assert init[i] == txs[i];
        }
      }
      PositiveTotals(init);
      assert PositiveTransaction(txs[|txs| - 1]);
    }
  }

  // ---------------------------------------------------------------------------
  // Transitions

  /** The transaction `addTransaction` records for a purchase: the purchase
      itself, a new id, and type `"buy"`. */
  function Recorded(p: Purchase, newId: Id): (t: Transaction)
    ensures t.kind == Buy && t.id == newId
    ensures t.date == p.date && t.pricePerGram == p.pricePerGram
    ensures t.amountSpent == p.amountSpent && t.goldAmount == p.goldAmount
  {
    Transaction(newId, p.date, Buy, p.pricePerGram, p.amountSpent, p.goldAmount)
  }

  /** The context's own guard: a purchase costing more than the cash balance is refused. */
  predicate CanAfford(s: State, amountSpent: real) {
    !(s.cashBalance < amountSpent)
  }

  /** `addTransaction`: a refused purchase leaves the state as it was; an
      accepted one pays for the gold and records it at the end of the list. */
  function AddTransaction(s: State, p: Purchase, newId: Id): (r: State)
    ensures !CanAfford(s, p.amountSpent) ==> r == s
    ensures CanAfford(s, p.amountSpent) ==>
      && r.cashBalance == s.cashBalance - p.amountSpent
      && r.cashBalance >= 0.0
      && r.totalGold == s.totalGold + p.goldAmount
      && |r.transactions| == |s.transactions| + 1
      && r.transactions[..|s.transactions|] == s.transactions
      && r.transactions[|s.transactions|] == Recorded(p, newId)
      && r.latestGoldPrice == s.latestGoldPrice
  {
    if s.cashBalance < p.amountSpent then
      s
    else
      var t := Recorded(p, newId);
      s.(cashBalance := s.cashBalance - t.amountSpent,
         totalGold := s.totalGold + t.goldAmount,
         transactions := s.transactions + [t])
  }

  /** `updateLatestGoldPrice`: the latest price becomes `price`, nothing else moves. */
  function UpdateLatestGoldPrice(s: State, price: real): (r: State)
    ensures r.latestGoldPrice == price
    ensures r.cashBalance == s.cashBalance && r.totalGold == s.totalGold
    ensures r.transactions == s.transactions
  {
    s.(latestGoldPrice := price)
  }

  // ---------------------------------------------------------------------------
  // One-shot seeding with the owner's two historical purchases

  const SeedDate: Date := Date(2025, 12, 9)

  function SeedTransactions(id1: Id, id2: Id): (txs: seq<Transaction>)
    ensures |txs| == 2 && txs[0].id == id1 && txs[1].id == id2
    ensures forall i :: 0 <= i < |txs| ==> txs[i].kind == Buy && PositiveTransaction(txs[i])
  {
    [ Transaction(id1, SeedDate, Buy, 2448000.0, 150000.0, 0.0613),
      Transaction(id2, SeedDate, Buy, 2442000.0, 200000.0, 0.0819) ]
  }

  /** The seed purchases cost 350000 in all and bought 0.1432 grams. */
  lemma SeedTotalsValue(id1: Id, id2: Id)
    ensures TotalSpent(SeedTransactions(id1, id2)) == 350000.0
    ensures TotalGrams(SeedTransactions(id1, id2)) == 0.1432
  {
    var txs := SeedTransactions(id1, id2);
    assert txs[..1][..0] == [];
    assert txs[..1] == [txs[0]];
    assert TotalSpent(txs[..1]) == 150000.0 && TotalGrams(txs[..1]) == 0.0613;
    assert txs[..|txs| - 1] == txs[..1];
  }

  /** The condition under which the seeding effect fires. */
  predicate ShouldSeed(s: State) {
    |s.transactions| == 0 && s.cashBalance == StartingCash
  }

  /** The totals the seeding effect computes with its `forEach` loop: the
      starting cash less every amount spent, and the grams bought. */
  method SeedTotals(txs: seq<Transaction>) returns (cash: real, gold: real)
    ensures cash == StartingCash - TotalSpent(txs)
    ensures gold == TotalGrams(txs)
  {
    cash := StartingCash;
    gold := 0.0;
    var i := 0;
    while i < |txs|
      invariant 0 <= i <= |txs|
      invariant cash == StartingCash - TotalSpent(txs[..i])
      invariant gold == TotalGrams(txs[..i])
    {
      TotalsPrefix(txs, i);
      cash := cash - txs[i].amountSpent;
      gold := gold + txs[i].goldAmount;
      i := i + 1;
    }
    assert txs[..|txs|] == txs;
  }

  /** The seeding effect: when it fires the ledger becomes exactly the two
      seed purchases, paid from the starting cash; otherwise nothing changes. */
  function Seed(s: State, id1: Id, id2: Id): (r: State)
    ensures !ShouldSeed(s) ==> r == s
    ensures ShouldSeed(s) ==>
      && r.cashBalance == 600000.0
      && r.totalGold == 0.1432
      && r.transactions == SeedTransactions(id1, id2)
      && r.latestGoldPrice == s.latestGoldPrice
  {
    if ShouldSeed(s) then
      var txs := SeedTransactions(id1, id2);
      SeedTotalsValue(id1, id2);
      s.(cashBalance := StartingCash - TotalSpent(txs),
         totalGold := TotalGrams(txs),
         transactions := txs)
    else
      s
  }

  // ---------------------------------------------------------------------------
  // Average buy price

  /** `getAverageBuyPrice`: money spent per gram bought, or 0 when nothing was bought. */
  function AverageBuyPrice(txs: seq<Transaction>): (r: real)
    ensures |txs| == 0 ==> r == 0.0
    ensures TotalGrams(txs) <= 0.0 ==> r == 0.0
    ensures TotalGrams(txs) > 0.0 ==> r * TotalGrams(txs) == TotalSpent(txs)
  {
    if |txs| == 0 then 0.0
    else
      var spent := TotalSpent(txs);
      var grams := TotalGrams(txs);
      if grams > 0.0 then spent / grams else 0.0
  }

  // ---------------------------------------------------------------------------
  // Loading a saved ledger

  /** A transaction as it may come back from storage: `id` and `type` may be missing. */
  datatype StoredTransaction = StoredTransaction(
    id: Option<Id>,
    date: Date,
    kind: Option<Kind>,
    pricePerGram: real,
    amountSpent: real,
    goldAmount: real)

  datatype StoredState = StoredState(
    cashBalance: real,
    totalGold: real,
    transactions: seq<StoredTransaction>,
    latestGoldPrice: real)

  /** `t.id || …` keeps an id only when it is present and not the empty string. */
  predicate HasId(t: StoredTransaction) {
    t.id.Some? && t.id.value != ""
  }

  /** The defaulting of one stored transaction, with `drawn` the id drawn for it. */
  function WithDefault(t: StoredTransaction, drawn: Id): (r: Transaction)
    ensures r.id == (if HasId(t) then t.id.value else drawn)
    ensures r.kind == (if t.kind.Some? then t.kind.value else Buy)
    ensures r.date == t.date && r.pricePerGram == t.pricePerGram
    ensures r.amountSpent == t.amountSpent && r.goldAmount == t.goldAmount
  {
    Transaction(
      if HasId(t) then t.id.value else drawn,
      t.date,
      if t.kind.Some? then t.kind.value else Buy,
      t.pricePerGram, t.amountSpent, t.goldAmount)
  }

  /** The `map` over the stored list; `drawn[i]` is the id drawn for entry `i`. */
  function WithDefaults(stored: seq<StoredTransaction>, drawn: seq<Id>): (r: seq<Transaction>)
    requires |drawn| == |stored|
    ensures |r| == |stored|
    ensures forall i :: 0 <= i < |r| ==> r[i] == WithDefault(stored[i], drawn[i])
  {
    seq(|stored|, i requires 0 <= i < |stored| => WithDefault(stored[i], drawn[i]))
  }

  /** The state the context starts from: the saved ledger with defaults filled in,
      or the initial ledger when nothing was saved. */
  function Load(saved: Option<StoredState>, drawn: seq<Id>): (r: State)
    requires saved.Some? ==> |drawn| == |saved.value.transactions|
    ensures saved.None? ==> r == Initial
    ensures saved.Some? ==>
      && r.cashBalance == saved.value.cashBalance
      && r.totalGold == saved.value.totalGold
      && r.latestGoldPrice == saved.value.latestGoldPrice
      && r.transactions == WithDefaults(saved.value.transactions, drawn)
  {
    match saved
    case None => Initial
    case Some(st) =>
      State(st.cashBalance, st.totalGold, WithDefaults(st.transactions, drawn), st.latestGoldPrice)
  }

  /** What `JSON.stringify` of the state writes: every field present. */
  function Stored(t: Transaction): StoredTransaction {
    StoredTransaction(Some(t.id), t.date, Some(t.kind), t.pricePerGram, t.amountSpent, t.goldAmount)
  }

  function StoredLedger(s: State): StoredState {
    StoredState(s.cashBalance, s.totalGold, seq(|s.transactions|, i requires 0 <= i < |s.transactions| => Stored(s.transactions[i])), s.latestGoldPrice)
  }

  predicate IdsPresent(txs: seq<Transaction>) {
    forall i :: 0 <= i < |txs| ==> txs[i].id != ""
  }

  predicate DistinctIds(txs: seq<Transaction>) {
    forall i, j :: 0 <= i < j < |txs| ==> txs[i].id != txs[j].id
  }

  /** Saving a ledger whose ids are all non-empty and loading it back gives
      the same ledger, whatever ids the loader would have drawn. */
  lemma LoadStoredRoundTrip(s: State, drawn: seq<Id>)
    requires IdsPresent(s.transactions)
    requires |drawn| == |s.transactions|
    ensures Load(Some(StoredLedger(s)), drawn) == s
  {
  }

  /** Loading never produces two transactions with the same id when the
      stored ids are distinct and every drawn id is new and unique. */
  lemma WithDefaultsDistinctIds(stored: seq<StoredTransaction>, drawn: seq<Id>)
    requires |drawn| == |stored|
    requires forall i, j :: 0 <= i < j < |stored| && HasId(stored[i]) && HasId(stored[j]) ==>
      stored[i].id.value != stored[j].id.value
    requires forall i, j :: 0 <= i < j < |drawn| ==> drawn[i] != drawn[j]
    requires forall i, j :: 0 <= i < |drawn| && 0 <= j < |stored| && HasId(stored[j]) ==>
      drawn[i] != stored[j].id.value
    ensures DistinctIds(WithDefaults(stored, drawn))
  {
  }
}
