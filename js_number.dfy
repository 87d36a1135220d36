/**
 * The results of JavaScript's floating-point division that the core can
 * reach: a finite quotient, an infinity when a non-zero amount is divided
 * by zero, or `NaN` for `0 / 0`. Amounts themselves are exact reals.
 */
module JsNumber {

  datatype Num = Finite(v: real) | PosInf | NegInf | NaN

  /** `(part / whole) * 100`. */
  function Percent(part: real, whole: real): (p: Num)
    ensures whole != 0.0 ==> p == Finite(part / whole * 100.0)
    ensures whole == 0.0 ==> (p.PosInf? <==> part > 0.0) && (p.NegInf? <==> part < 0.0) && (p.NaN? <==> part == 0.0)
  {
    if whole != 0.0 then Finite(part / whole * 100.0)
    else if part > 0.0 then PosInf
    else if part < 0.0 then NegInf
    else NaN
  }

  /** `x >= t` for a number and a finite threshold; `NaN` compares false. */
  predicate AtLeast(x: Num, t: real)
  {
    match x
    case Finite(v) => v >= t
    case PosInf => true
    case NegInf => false
    case NaN => false
  }

  /** `Math.round` on a finite value: halves go up. */
  function Round(x: real): int
  {
    (x + 0.5).Floor
  }

  /** A share of a positive whole, when the part is between 0 and the whole, is a percentage from 0 to 100. */
  lemma PercentOfShare(part: real, whole: real)
    requires 0.0 <= part <= whole && whole > 0.0
    ensures Percent(part, whole).Finite? && 0.0 <= Percent(part, whole).v <= 100.0
  {
    var q := part / whole;
    assert q * whole == part;
    assert q <= 1.0;
  }
}
