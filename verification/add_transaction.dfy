/** The purchase form: the gold amount it derives while the user types, the
    checks of its submission, and the single `addTransaction` call it makes. */
module AddTransaction {
  import opened Inputs
  import opened InvestmentContext

  /** The gold amount the form writes into its read-only field: money over
      price written with four decimals (`toFixed(4)`) when both parse and the
      price is positive, blank otherwise. The written grams differ from the
      exact quotient by at most half of 0.0001, so grams times price misses
      the money by at most 0.00005 times the price.
      The edit dialog's `calculateGoldAmount` applies the same rule. */
  function DerivedGold(amountSpent: Field, pricePerGram: Field): (g: Field)
    ensures
      (ParseFloat(amountSpent).Some? && ParseFloat(pricePerGram).Some? && ParseFloat(pricePerGram).value > 0.0)
      ==> && ParseFloat(g) == Some(Round4(ParseFloat(amountSpent).value / ParseFloat(pricePerGram).value))
          && WithinRounding(ParseFloat(g).value, ParseFloat(pricePerGram).value, ParseFloat(amountSpent).value)
    ensures
      !(ParseFloat(amountSpent).Some? && ParseFloat(pricePerGram).Some? && ParseFloat(pricePerGram).value > 0.0)
      ==> g == Blank
  {
    match (ParseFloat(amountSpent), ParseFloat(pricePerGram))
    case (Some(amount), Some(price)) =>
      if price > 0.0 then
        RoundedQuotient(amount, price);
        Fixed4(amount / price)
      else Blank
    case _ => Blank
  }

  /** `grams` bought at `price` pays `amount` up to the four-decimal rounding
      of the grams. */
  predicate WithinRounding(grams: real, price: real, amount: real) {
    -0.00005 * price <= grams * price - amount <= 0.00005 * price
  }

  lemma RoundedQuotient(amount: real, price: real)
    requires price > 0.0
    ensures WithinRounding(Round4(amount / price), price, amount)
  {
    var q := amount / price;
    var e := Round4(q) - q;
    assert q * price == amount;
    assert Round4(q) * price - amount == e * price;
    assert -0.00005 * price <= e * price <= 0.00005 * price by {
      assert (e + 0.00005) * price >= 0.0;
      assert (0.00005 - e) * price >= 0.0;
    }
  }

  datatype Form = Form(date: Option<Date>, pricePerGram: Field, amountSpent: Field, goldAmount: Field)

  /** The form as it starts out and as it is reset after a submission. */
  function Empty(today: Date): Form {
    Form(Some(today), Blank, Blank, Blank)
  }

  /** The gold field always holds the amount derived from the two inputs. */
  predicate Coherent(f: Form) {
    f.goldAmount == DerivedGold(f.amountSpent, f.pricePerGram)
  }

  /** `handleAmountSpentChange`. */
  function ChangeAmountSpent(f: Form, amountSpent: Field): (r: Form)
    ensures Coherent(r)
    ensures r.amountSpent == amountSpent && r.pricePerGram == f.pricePerGram && r.date == f.date
  {
    f.(amountSpent := amountSpent, goldAmount := DerivedGold(amountSpent, f.pricePerGram))
  }

  /** `handlePricePerGramChange`. */
  function ChangePricePerGram(f: Form, pricePerGram: Field): (r: Form)
    ensures Coherent(r)
    ensures r.pricePerGram == pricePerGram && r.amountSpent == f.amountSpent && r.date == f.date
  {
    f.(pricePerGram := pricePerGram, goldAmount := DerivedGold(f.amountSpent, pricePerGram))
  }

  lemma EmptyIsCoherent(today: Date)
    ensures Coherent(Empty(today))
  {
  }

  datatype Error = MissingField | InvalidNumber | InsufficientCash

  datatype Checked = Rejected(error: Error) | Accepted(purchase: Purchase)

  predicate AnyBlank(f: Form) {
    f.date.None? || f.pricePerGram.Blank? || f.amountSpent.Blank? || f.goldAmount.Blank?
  }

  /** A field that the numeric check admits. */
  predicate PositiveField(x: Field) {
    ParseFloat(x).Some? && ParseFloat(x).value > 0.0
  }

  /** The checks of `handleSubmit`, in order: every field filled, every
      number positive, and no more money than the cash balance. */
  function Check(f: Form, cashBalance: real): (r: Checked)
    ensures r == Rejected(MissingField) <==> AnyBlank(f)
    ensures r == Rejected(InvalidNumber) <==>
      !AnyBlank(f) && !(PositiveField(f.pricePerGram) && PositiveField(f.amountSpent) && PositiveField(f.goldAmount))
    ensures r == Rejected(InsufficientCash) <==>
      && !AnyBlank(f)
      && PositiveField(f.pricePerGram) && PositiveField(f.amountSpent) && PositiveField(f.goldAmount)
      && ParseFloat(f.amountSpent).value > cashBalance
    ensures r.Accepted? ==>
      && r.purchase.date == f.date.value
      && Some(r.purchase.pricePerGram) == ParseFloat(f.pricePerGram)
      && Some(r.purchase.amountSpent) == ParseFloat(f.amountSpent)
      && Some(r.purchase.goldAmount) == ParseFloat(f.goldAmount)
      && r.purchase.pricePerGram > 0.0 && r.purchase.amountSpent > 0.0 && r.purchase.goldAmount > 0.0
      && r.purchase.amountSpent <= cashBalance
  {
    if AnyBlank(f) then Rejected(MissingField)
    else
      match (ParseFloat(f.pricePerGram), ParseFloat(f.amountSpent), ParseFloat(f.goldAmount))
      case (Some(price), Some(amount), Some(gold)) =>
        if price <= 0.0 || amount <= 0.0 || gold <= 0.0 then Rejected(InvalidNumber)
        else if amount > cashBalance then Rejected(InsufficientCash)
        else Accepted(Purchase(f.date.value, price, amount, gold))
      case _ => Rejected(InvalidNumber)
  }

  /** `handleSubmit` against the ledger `s`, with `newId` the id the context
      draws: a refused form leaves the ledger alone; an accepted one makes
      exactly one `addTransaction` call with the parsed values. */
  function Submit(f: Form, s: State, newId: Id): (r: State)
    ensures Check(f, s.cashBalance).Rejected? ==> r == s
    ensures Check(f, s.cashBalance).Accepted? ==>
      r == InvestmentContext.AddTransaction(s, Check(f, s.cashBalance).purchase, newId)
  {
    match Check(f, s.cashBalance)
    case Rejected(_) => s
    case Accepted(p) => InvestmentContext.AddTransaction(s, p, newId)
  }

  /** The form's cash check and the context's agree (equality is accepted by
      both), so an accepted form is never refused by the context, and the
      purchase it records carries the parsed values. */
  lemma AcceptedIsRecorded(f: Form, s: State, newId: Id)
    requires Check(f, s.cashBalance).Accepted?
    ensures CanAfford(s, Check(f, s.cashBalance).purchase.amountSpent)
    ensures |Submit(f, s, newId).transactions| == |s.transactions| + 1
    ensures Submit(f, s, newId).transactions[|s.transactions|]
         == Recorded(Check(f, s.cashBalance).purchase, newId)
    ensures PositiveTransaction(Submit(f, s, newId).transactions[|s.transactions|])
    ensures Submit(f, s, newId).cashBalance >= 0.0
  {
  }

  /** Of a form that only ever changed through its handlers, an accepted
      purchase bought money-over-price grams up to the four-decimal rounding
      of the gold field. */
  lemma AcceptedGoldIsDerived(f: Form, cashBalance: real)
    requires Coherent(f)
    requires Check(f, cashBalance).Accepted?
    ensures WithinRounding(Check(f, cashBalance).purchase.goldAmount,
                           Check(f, cashBalance).purchase.pricePerGram,
                           Check(f, cashBalance).purchase.amountSpent)
  {
  }

  /** The rounding is visible in the two seeded purchases: their stored grams
      are what the form derives from their money and price, and the first
      does not pay back its money exactly. */
  lemma SeedRowsAreDerived()
    ensures ParseFloat(DerivedGold(Show(150000.0), Show(2448000.0))) == Some(0.0613)
    ensures ParseFloat(DerivedGold(Show(200000.0), Show(2442000.0))) == Some(0.0819)
    ensures 0.0613 * 2448000.0 != 150000.0
  {
  }

  /** A purchase too small to show up in four decimals is refused: its gold
      field reads 0, which the positivity check turns away. */
  lemma TinyPurchaseRefused(f: Form, cashBalance: real)
    requires Coherent(f) && f.date.Some?
    requires PositiveField(f.amountSpent) && PositiveField(f.pricePerGram)
    requires ParseFloat(f.amountSpent).value * 20000.0 < ParseFloat(f.pricePerGram).value
    ensures Check(f, cashBalance) == Rejected(InvalidNumber)
  {
    var amount, price := ParseFloat(f.amountSpent).value, ParseFloat(f.pricePerGram).value;
    assert amount / price < 0.00005 by {
      assert (amount / price) * price == amount;
    }
  }
}
