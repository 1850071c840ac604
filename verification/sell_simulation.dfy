/** The sell simulation card: what the whole gold holding would fetch at a
    target price per gram, and the profit or loss against the average buy
    price. */
module SellSimulation {
  import opened Inputs
  import opened InvestmentContext

  datatype Outcome =
    | InvalidTarget                                  // error toast, nothing computed
    | NothingToSell                                  // informational toast: no gold held
    | Simulated(sellingValue: real, profitLoss: real)

  /** The computation of `handleSubmit` for the ledger `s`. */
  function Simulate(s: State, target: Field): (r: Outcome)
    ensures r == InvalidTarget <==> PositiveNumber(target).None?
    ensures r == NothingToSell <==> PositiveNumber(target).Some? && s.totalGold == 0.0
    ensures r.Simulated? ==>
      var price := ParseFloat(target).value;
      && price > 0.0
      && r.sellingValue == s.totalGold * price
      && r.profitLoss == s.totalGold * (price - AverageBuyPrice(s.transactions))
  {
    match PositiveNumber(target)
    case None => InvalidTarget
    case Some(price) =>
      if s.totalGold == 0.0 then NothingToSell
      else
        var sellingValue := s.totalGold * price;
        var investedCost := s.totalGold * AverageBuyPrice(s.transactions);
        Simulated(sellingValue, sellingValue - investedCost)
  }

  /** With gold held, the simulation shows a gain (drawn green) exactly when
      the target price reaches the average buy price. */
  lemma ProfitSign(s: State, target: Field)
    requires s.totalGold > 0.0
    requires Simulate(s, target).Simulated?
    ensures Simulate(s, target).profitLoss >= 0.0 <==>
      ParseFloat(target).value >= AverageBuyPrice(s.transactions)
  {
  }

  /** The card's state: the target input and the two results on display. */
  datatype Card = Card(target: Field, sellingValue: Option<real>, profitLoss: Option<real>)

  /** The card shows its result block only when both results are set. */
  predicate ShowsResult(c: Card) {
    c.sellingValue.Some? && c.profitLoss.Some?
  }

  /** `handleTargetSellPriceChange`: a new target clears both results. */
  function ChangeTarget(c: Card, target: Field): (r: Card)
    ensures r.target == target
    ensures r.sellingValue.None? && r.profitLoss.None? && !ShowsResult(r)
  {
    Card(target, None, None)
  }

  /** Submitting the card: a refused or informational outcome leaves the
      card as it was; a simulation puts both results on display. */
  function Submit(c: Card, s: State): (r: Card)
    ensures !Simulate(s, c.target).Simulated? ==> r == c
    ensures Simulate(s, c.target).Simulated? ==>
      && r.target == c.target
      && ShowsResult(r)
      && r.sellingValue.value == Simulate(s, c.target).sellingValue
      && r.profitLoss.value == Simulate(s, c.target).profitLoss
  {
    match Simulate(s, c.target)
    case Simulated(v, pl) => c.(sellingValue := Some(v), profitLoss := Some(pl))
    case _ => c
  }

  /** A result on display always belongs to the target now in the input:
      changing the target and submitting shows a result only when that very
      target simulates. */
  lemma ResultMatchesTarget(c: Card, s: State, target: Field)
    ensures ShowsResult(Submit(ChangeTarget(c, target), s)) <==> Simulate(s, target).Simulated?
  {
  }
}
