/** Parsed form input.

    Every form of the application holds its numeric inputs as text and runs
    `parseFloat` on them at submission time. The model abstracts the text away:
    a field is either blank (the empty string, which JavaScript treats as falsy)
    or filled with some text whose `parseFloat` value is either a number or NaN.
 */
module Inputs {

  datatype Option<+T> = None | Some(value: T)

  /** A text input of a form. `Filled(None)` is text that parses to NaN. */
  datatype Field = Blank | Filled(parsed: Option<real>)

  /** `parseFloat` of the field's text; the empty string parses to NaN. */
  function ParseFloat(f: Field): (r: Option<real>)
    ensures f.Blank? ==> r.None?
    ensures f.Filled? ==> r == f.parsed
  {
    match f
    case Blank => None
    case Filled(p) => p
  }

  /** The text of a number the form wrote into a field itself
      (`x.toString()`), which parses back to the same number. */
  function Show(x: real): (f: Field)
    ensures ParseFloat(f) == Some(x)
    ensures !f.Blank?
  {
    Filled(Some(x))
  }

  /** The number `x.toFixed(4)` writes: `x` to the nearest multiple of
      0.0001, a tie going away from zero (the magnitude is rounded, then the
      sign put back). It is never more than half a step off, it is a whole
      number of steps, and a positive `x` below half a step becomes 0. */
  function Round4(x: real): (r: real)
    ensures -0.00005 <= r - x <= 0.00005
    ensures (r * 10000.0).Floor as real == r * 10000.0
    ensures x >= 0.0 ==> r >= 0.0
    ensures x > 0.0 ==> (r > 0.0 <==> x >= 0.00005)
  {
    if x < 0.0 then
      var m := RoundMagnitude4(-x);
      WholeNegated(m * 10000.0);
      -m
    else RoundMagnitude4(x)
  }

  /** The negation of a whole number is whole. */
  lemma WholeNegated(z: real)
    requires z.Floor as real == z
    ensures (-z).Floor as real == -z
  {
    var n := z.Floor;
    assert -z == (-n) as real;
  }

  /** The rounding step of `toFixed(4)` for a non-negative number: the
      larger of the two nearest multiples of 0.0001 on a tie. */
  function RoundMagnitude4(y: real): (r: real)
    requires y >= 0.0
    ensures -0.00005 < r - y <= 0.00005
    ensures (r * 10000.0).Floor as real == r * 10000.0
    ensures r >= 0.0
    ensures r > 0.0 <==> y >= 0.00005
  {
    (y * 10000.0 + 0.5).Floor as real / 10000.0
  }

  /** The text `x.toFixed(4)`, which parses back to the rounded number. */
  function Fixed4(x: real): (f: Field)
    ensures ParseFloat(f) == Some(Round4(x))
    ensures !f.Blank?
  {
    Filled(Some(Round4(x)))
  }

  /** The guard shared by the price, target-price and amount forms:
      reject NaN and every value `<= 0`, otherwise hand on the number. */
  function PositiveNumber(f: Field): (r: Option<real>)
    ensures r.Some? <==> (ParseFloat(f).Some? && ParseFloat(f).value > 0.0)
    ensures r.Some? ==> r.value > 0.0 && ParseFloat(f) == r
  {
    match ParseFloat(f)
    case None => None
    case Some(x) => if x <= 0.0 then None else Some(x)
  }
}
