/** The price tracker page: the form that records the latest gold price and
    the buy/sell/hold recommendation it shows beside it. */
module PriceTracker {
  import opened Inputs
  import opened InvestmentContext

  /** `handleSubmit`: a price that is NaN or not positive is refused and the
      ledger stays as it is; a positive price goes unchanged to
      `updateLatestGoldPrice`. */
  function SubmitPrice(s: State, input: Field): (r: State)
    ensures PositiveNumber(input).None? ==> r == s
    ensures PositiveNumber(input).Some? ==>
      r == UpdateLatestGoldPrice(s, ParseFloat(input).value) && r.latestGoldPrice > 0.0
  {
    match PositiveNumber(input)
    case None => s
    case Some(price) => UpdateLatestGoldPrice(s, price)
  }

  /** A JavaScript number as the percentage computation can produce it: a
      finite value, or the outcome of dividing by an average of zero. */
  datatype Percent = Finite(value: real) | PlusInfinity | MinusInfinity | NotANumber

  /** `(latest - average) / average * 100` with JavaScript's division. */
  function PercentDelta(latest: real, average: real): (r: Percent)
    ensures average != 0.0 ==> r.Finite? && r.value * average == (latest - average) * 100.0
    ensures average == 0.0 ==> !r.Finite?
    ensures average == 0.0 && latest > 0.0 ==> r == PlusInfinity
    ensures average == 0.0 && latest < 0.0 ==> r == MinusInfinity
  {
    if average != 0.0 then Finite((latest - average) / average * 100.0)
    else if latest > 0.0 then PlusInfinity
    else if latest < 0.0 then MinusInfinity
    else NotANumber
  }

  datatype Signal = ConsiderSelling | ConsiderBuying | HoldPosition

  /** The three thresholds of `getRecommendation`, one signal per delta. */
  function Classify(delta: Percent): (r: Signal)
    ensures delta.Finite? ==> (r == ConsiderSelling <==> delta.value >= 5.0)
    ensures delta.Finite? ==> (r == ConsiderBuying <==> delta.value <= -5.0)
    ensures delta.Finite? ==> (r == HoldPosition <==> -5.0 < delta.value < 5.0)
    ensures delta == PlusInfinity ==> r == ConsiderSelling
    ensures delta == MinusInfinity ==> r == ConsiderBuying
    ensures delta == NotANumber ==> r == HoldPosition
  {
    match delta
    case Finite(d) => if d >= 5.0 then ConsiderSelling else if d <= -5.0 then ConsiderBuying else HoldPosition
    case PlusInfinity => ConsiderSelling
    case MinusInfinity => ConsiderBuying
    case NotANumber => HoldPosition
  }

  datatype Recommendation = InsufficientData | Advice(signal: Signal, delta: Percent)

  /** `getRecommendation` over the ledger: no advice without a latest price
      or without gold; otherwise the delta of the latest price against the
      average buy price, classified. */
  function GetRecommendation(s: State): (r: Recommendation)
    ensures r == InsufficientData <==> s.latestGoldPrice == 0.0 || s.totalGold == 0.0
    ensures r.Advice? ==>
      && r.delta == PercentDelta(s.latestGoldPrice, AverageBuyPrice(s.transactions))
      && r.signal == Classify(r.delta)
  {
    if s.latestGoldPrice == 0.0 || s.totalGold == 0.0 then
      InsufficientData
    else
      var delta := PercentDelta(s.latestGoldPrice, AverageBuyPrice(s.transactions));
      Advice(Classify(delta), delta)
  }

  /** With a positive average, the signal depends on the latest price alone:
      consider selling at 105% of the average or more, consider buying at
      95% or less, hold in between. */
  lemma SignalThresholds(latest: real, average: real)
    requires average > 0.0
    ensures Classify(PercentDelta(latest, average)) == ConsiderSelling <==> latest * 20.0 >= average * 21.0
    ensures Classify(PercentDelta(latest, average)) == ConsiderBuying <==> latest * 20.0 <= average * 19.0
    ensures Classify(PercentDelta(latest, average)) == HoldPosition <==>
      average * 19.0 < latest * 20.0 < average * 21.0
  {
    var d := PercentDelta(latest, average).value;
    var m := d * average;
    assert m == latest * 100.0 - average * 100.0;
    ScaleByPositive(5.0, d, average);
    ScaleByPositive(d, -5.0, average);
    assert m >= 5.0 * average <==> latest * 20.0 >= average * 21.0;
    assert m <= -5.0 * average <==> latest * 20.0 <= average * 19.0;
  }

  /** Multiplying by a positive number keeps the order. */
  lemma ScaleByPositive(x: real, y: real, k: real)
    requires k > 0.0
    ensures x <= y <==> x * k <= y * k
  {
  }
}
