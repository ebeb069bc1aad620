/**
 * JavaScript numbers without rounding: an exact real, or one of the special
 * values IEEE 754 division produces when the divisor is zero. Zero is unsigned
 * here, so a division by zero is read as a division by +0.
 */
module Numbers {

  datatype Num = Fin(value: real) | PosInf | NegInf | NaN

  /** `x > 0` on a JavaScript number: false for NaN. */
  predicate Positive(x: Num) {
    x == PosInf || (x.Fin? && x.value > 0.0)
  }

  /** The infinity with the sign of `x`, or NaN when `x` is zero (what `x / 0` gives). */
  function OverZero(x: real): Num {
    if x > 0.0 then PosInf else if x < 0.0 then NegInf else NaN
  }

  function Negate(x: Num): Num {
    match x
    case Fin(a) => Fin(-a)
    case PosInf => NegInf
    case NegInf => PosInf
    case NaN => NaN
  }

  /** `x + y`. */
  function Add(x: Num, y: Num): (r: Num)
    ensures x.Fin? && y.Fin? ==> r == Fin(x.value + y.value)
    ensures x.NaN? || y.NaN? ==> r.NaN?
    ensures !x.Fin? || !y.Fin? ==> !r.Fin?
  {
    match (x, y)
    case (Fin(a), Fin(b)) => Fin(a + b)
    case (NaN, _) => NaN
    case (_, NaN) => NaN
    case (PosInf, NegInf) => NaN
    case (NegInf, PosInf) => NaN
    case (PosInf, _) => PosInf
    case (NegInf, _) => NegInf
    case (Fin(_), _) => y
  }

  /** `x * k` for a finite `k`. */
  function Mul(x: Num, k: real): (r: Num)
    ensures r.Fin? <==> x.Fin?
  {
    match x
    case Fin(a) => Fin(a * k)
    case NaN => NaN
    case _ => if k > 0.0 then x else if k < 0.0 then Negate(x) else NaN
  }

  /** `x / y`. */
  function Div(x: Num, y: Num): (r: Num)
    ensures x.Fin? && y.Fin? && y.value != 0.0 ==> r == Fin(x.value / y.value)
    ensures x.Fin? && y.Fin? && y.value == 0.0 ==> !r.Fin?
    ensures !x.Fin? ==> !r.Fin?
  {
    match (x, y)
    case (NaN, _) => NaN
    case (_, NaN) => NaN
    case (Fin(a), Fin(b)) => if b != 0.0 then Fin(a / b) else OverZero(a)
    case (Fin(_), _) => Fin(0.0)
    case (_, Fin(b)) => if b < 0.0 then Negate(x) else x
    case (_, _) => NaN
  }

  lemma MulFinite(a: real, k: real)
    ensures Mul(Fin(a), k) == Fin(a * k)
  {
  }

  lemma AddFinite(a: real, b: real)
    ensures Add(Fin(a), Fin(b)) == Fin(a + b)
  {
  }

  lemma DivFinite(a: real, b: real)
    requires b != 0.0
    ensures Div(Fin(a), Fin(b)) == Fin(a / b)
  {
  }

  /** One step `acc + w * k` of a fold over finite numbers stays finite. */
  lemma AccumulateFinite(acc: Num, a: real, w: Num, b: real, k: real)
    requires acc == Fin(a) && w == Fin(b)
    ensures Add(acc, Mul(w, k)) == Fin(a + b * k)
  {
    MulFinite(b, k);
    AddFinite(a, b * k);
  }
}
