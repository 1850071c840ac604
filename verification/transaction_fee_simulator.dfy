/** The transaction fee simulator: a tiered fee schedule and the form that
    estimates the fee for an amount to invest. */
module TransactionFeeSimulator {
  import opened Inputs

  /** Up to this amount the fee is flat. */
  const FlatFeeLimit: real := 1000000.0
  const FlatFee: real := 5000.0
  /** The proportional rate above the flat tier: 0.1%. */
  const ProportionalRate: real := 0.001

  /** `calculateFee`. */
  function CalculateFee(amount: real): (r: real)
    ensures amount <= FlatFeeLimit ==> r == FlatFee
    ensures amount > FlatFeeLimit ==> r * 1000.0 == amount
  {
    if amount <= FlatFeeLimit then FlatFee else amount * ProportionalRate
  }

  /** Every positive amount is charged a positive fee, and never less than
      1000 (the proportional tier starts just above 1,000,000). */
  lemma FeePositive(amount: real)
    requires amount > 0.0
    ensures CalculateFee(amount) > 1000.0 || CalculateFee(amount) == FlatFee
    ensures CalculateFee(amount) > 0.0
  {
  }

  lemma FeeExamples()
    ensures CalculateFee(1000000.0) == 5000.0
    ensures CalculateFee(2000000.0) == 2000.0
    ensures CalculateFee(5000000.0) == 5000.0
  {
  }

  /** The schedule is not monotone: just above the flat tier the fee drops
      from 5000 to about 1000, and only catches up again at 5,000,000. */
  lemma FeeNotMonotone()
    ensures CalculateFee(1000000.0) > CalculateFee(1000001.0)
    ensures exists a: real, b: real :: a < b && CalculateFee(a) > CalculateFee(b)
  {
  }

  /** Within the proportional tier a larger amount pays a larger fee, and it
      pays less than the flat fee exactly below 5,000,000. */
  lemma ProportionalTier(a: real, b: real)
    requires FlatFeeLimit < a < b
    ensures CalculateFee(a) < CalculateFee(b)
    ensures CalculateFee(a) < FlatFee <==> a < 5000000.0
  {
  }

  /** `handleSubmit`: an amount that is NaN or not positive is refused and
      no fee is computed; otherwise the fee of the parsed amount. */
  function SubmitAmount(input: Field): (r: Option<real>)
    ensures r.None? <==> PositiveNumber(input).None?
    ensures r.Some? ==> r.value == CalculateFee(ParseFloat(input).value) && r.value > 0.0
  {
    match PositiveNumber(input)
    case None => None
    case Some(amount) =>
      FeePositive(amount);
      Some(CalculateFee(amount))
  }

  /** The form's state: the amount input and the fee on display. */
  datatype Form = Form(amount: Field, fee: Option<real>)

  /** `handleAmountChange`: a new amount clears the fee on display. */
  function ChangeAmount(f: Form, amount: Field): (r: Form)
    ensures r.amount == amount && r.fee.None?
  {
    Form(amount, None)
  }

  /** Submitting the form: a refused amount leaves the form as it was. */
  function Submit(f: Form): (r: Form)
    ensures SubmitAmount(f.amount).None? ==> r == f
    ensures SubmitAmount(f.amount).Some? ==> r.amount == f.amount && r.fee == SubmitAmount(f.amount)
  {
    match SubmitAmount(f.amount)
    case None => f
    case Some(fee) => f.(fee := Some(fee))
  }

  /** A fee on display is always the fee of the amount now in the input. */
  lemma FeeMatchesAmount(f: Form, amount: Field)
    ensures Submit(ChangeAmount(f, amount)).fee.Some? <==> PositiveNumber(amount).Some?
    ensures Submit(ChangeAmount(f, amount)).fee.Some? ==>
      Submit(ChangeAmount(f, amount)).fee.value == CalculateFee(ParseFloat(amount).value)
  {
  }
}
