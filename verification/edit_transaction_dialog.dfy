/** The edit dialog for a stored purchase: its form, its checks, and the
    cash-difference rule it applies before asking for the update.

    The stored row carries an optional transaction fee. The update call
    itself belongs to the backend and is not part of this model: an
    accepted edit is represented by the update request it would send. */
module EditTransactionDialog {
  import opened Inputs
  import opened InvestmentContext
  import AddTransaction

  /** A purchase row as the dialog receives it. */
  datatype Row = Row(
    id: Id,
    date: Date,
    kind: Kind,
    pricePerGram: real,
    amountSpent: real,
    goldAmount: real,
    transactionFee: Option<real>)

  datatype Form = Form(
    date: Option<Date>,
    pricePerGram: Field,
    amountSpent: Field,
    goldAmount: Field,
    transactionFee: Field)

  /** `transaction_fee || 0`: a missing fee counts as zero. */
  function StoredFee(row: Row): (r: real)
    ensures row.transactionFee.None? ==> r == 0.0
    ensures row.transactionFee.Some? ==> r == row.transactionFee.value
  {
    if row.transactionFee.Some? then row.transactionFee.value else 0.0
  }

  /** The form filled from the row when the dialog opens. */
  function Opened(row: Row): (f: Form)
    ensures f.date == Some(row.date)
    ensures ParseFloat(f.pricePerGram) == Some(row.pricePerGram)
    ensures ParseFloat(f.amountSpent) == Some(row.amountSpent)
    ensures ParseFloat(f.goldAmount) == Some(row.goldAmount)
    ensures ParseFloat(f.transactionFee) == Some(StoredFee(row))
  {
    Form(Some(row.date), Show(row.pricePerGram), Show(row.amountSpent), Show(row.goldAmount), Show(StoredFee(row)))
  }

  /** `calculateGoldAmount` on an amount change. */
  function ChangeAmountSpent(f: Form, amountSpent: Field): (r: Form)
    ensures r.goldAmount == AddTransaction.DerivedGold(amountSpent, f.pricePerGram)
    ensures r.amountSpent == amountSpent && r.pricePerGram == f.pricePerGram
    ensures r.date == f.date && r.transactionFee == f.transactionFee
  {
    f.(amountSpent := amountSpent, goldAmount := AddTransaction.DerivedGold(amountSpent, f.pricePerGram))
  }

  /** `calculateGoldAmount` on a price change. */
  function ChangePricePerGram(f: Form, pricePerGram: Field): (r: Form)
    ensures r.goldAmount == AddTransaction.DerivedGold(f.amountSpent, pricePerGram)
    ensures r.pricePerGram == pricePerGram && r.amountSpent == f.amountSpent
    ensures r.date == f.date && r.transactionFee == f.transactionFee
  {
    f.(pricePerGram := pricePerGram, goldAmount := AddTransaction.DerivedGold(f.amountSpent, pricePerGram))
  }

  /** `parseFloat(transactionFee || "0")`: an empty fee is zero. */
  function ParseFee(fee: Field): (r: Option<real>)
    ensures fee.Blank? ==> r == Some(0.0)
    ensures fee.Filled? ==> r == ParseFloat(fee)
  {
    if fee.Blank? then Some(0.0) else ParseFloat(fee)
  }

  /** What the dialog asks the backend to store for the row with id `id`. */
  datatype Update = Update(
    id: Id,
    date: Date,
    pricePerGram: real,
    amountSpent: real,
    goldAmount: real,
    transactionFee: real)

  datatype Error = MissingField | InvalidNumber | InvalidFee | InsufficientCash

  datatype Checked = Rejected(error: Error) | Accepted(update: Update)

  /** The fee is optional; every other field is required. */
  predicate AnyRequiredBlank(f: Form) {
    f.date.None? || f.pricePerGram.Blank? || f.amountSpent.Blank? || f.goldAmount.Blank?
  }

  predicate NumbersValid(f: Form) {
    && AddTransaction.PositiveField(f.pricePerGram)
    && AddTransaction.PositiveField(f.amountSpent)
    && AddTransaction.PositiveField(f.goldAmount)
  }

  predicate FeeValid(f: Form) {
    ParseFee(f.transactionFee).Some? && ParseFee(f.transactionFee).value >= 0.0
  }

  /** Money plus fee the row cost when it was stored. */
  function OldCost(row: Row): real {
    row.amountSpent + StoredFee(row)
  }

  /** The cash-difference rule: the edit may not take the cash balance
      below zero once the change in total cost is paid. */
  predicate Affordable(cashBalance: real, oldCost: real, newCost: real) {
    !(cashBalance - (newCost - oldCost) < 0.0)
  }

  /** The checks of `handleSubmit`, in order, for the row being edited. */
  function Check(f: Form, row: Row, cashBalance: real): (r: Checked)
    ensures r == Rejected(MissingField) <==> AnyRequiredBlank(f)
    ensures r == Rejected(InvalidNumber) <==> !AnyRequiredBlank(f) && !NumbersValid(f)
    ensures r == Rejected(InvalidFee) <==> !AnyRequiredBlank(f) && NumbersValid(f) && !FeeValid(f)
    ensures r == Rejected(InsufficientCash) <==>
      && !AnyRequiredBlank(f) && NumbersValid(f) && FeeValid(f)
      && !Affordable(cashBalance, OldCost(row),
                     ParseFloat(f.amountSpent).value + ParseFee(f.transactionFee).value)
    ensures r.Accepted? ==>
      && r.update.id == row.id
      && r.update.date == f.date.value
      && Some(r.update.pricePerGram) == ParseFloat(f.pricePerGram)
      && Some(r.update.amountSpent) == ParseFloat(f.amountSpent)
      && Some(r.update.goldAmount) == ParseFloat(f.goldAmount)
      && Some(r.update.transactionFee) == ParseFee(f.transactionFee)
      && r.update.transactionFee >= 0.0
      && cashBalance - (r.update.amountSpent + r.update.transactionFee - OldCost(row)) >= 0.0
  {
    if AnyRequiredBlank(f) then Rejected(MissingField)
    else
      match (ParseFloat(f.pricePerGram), ParseFloat(f.amountSpent), ParseFloat(f.goldAmount))
      case (Some(price), Some(amount), Some(gold)) =>
        if price <= 0.0 || amount <= 0.0 || gold <= 0.0 then Rejected(InvalidNumber)
        else
          (match ParseFee(f.transactionFee)
           case None => Rejected(InvalidFee)
           case Some(fee) =>
             if fee < 0.0 then Rejected(InvalidFee)
             else
               var newCost := amount + fee;
               var cashDifference := newCost - OldCost(row);
               if cashBalance - cashDifference < 0.0 then Rejected(InsufficientCash)
               else Accepted(Update(row.id, f.date.value, price, amount, gold, fee)))
      case _ => Rejected(InvalidNumber)
  }

  /** With a non-negative cash balance, an otherwise valid edit that does not
      raise the total cost always passes the cash check. */
  lemma CheaperEditAffordable(f: Form, row: Row, cashBalance: real)
    requires cashBalance >= 0.0
    requires !AnyRequiredBlank(f) && NumbersValid(f) && FeeValid(f)
    requires ParseFloat(f.amountSpent).value + ParseFee(f.transactionFee).value <= OldCost(row)
    ensures Check(f, row, cashBalance).Accepted?
  {
  }

  /** Opening the dialog on a valid row and saving it untouched is accepted
      whenever the cash balance is not negative, and asks to store the row
      as it was, with a missing fee written as zero. */
  lemma UntouchedEditRoundTrip(row: Row, cashBalance: real)
    requires cashBalance >= 0.0
    requires row.pricePerGram > 0.0 && row.amountSpent > 0.0 && row.goldAmount > 0.0
    requires StoredFee(row) >= 0.0
    ensures Check(Opened(row), row, cashBalance) ==
      Accepted(Update(row.id, row.date, row.pricePerGram, row.amountSpent, row.goldAmount, StoredFee(row)))
  {
  }
}
