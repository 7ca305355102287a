/** The part of JavaScript number arithmetic the pages rely on: division,
    which never throws and instead yields NaN or an infinity when the divisor
    is zero. Finite values are exact rationals; floating-point rounding is
    not modelled. */
module JsNumber {

  datatype Number = Finite(value: real) | NaN | PosInfinity | NegInfinity

  /** `x / y` on JavaScript numbers. */
  function Divide(x: real, y: real): (q: Number)
    ensures q.Finite? <==> y != 0.0
    ensures q.Finite? ==> q.value * y == x
    ensures q == NaN <==> x == 0.0 && y == 0.0
  {
    if y != 0.0 then Finite(x / y)
    else if x == 0.0 then NaN
    else if x > 0.0 then PosInfinity
    else NegInfinity
  }

  /** `q * k`: NaN and the infinities propagate (k is a positive constant). */
  function Scale(q: Number, k: real): (r: Number)
    requires k > 0.0
    ensures r.Finite? <==> q.Finite?
    ensures q.Finite? ==> r.value == q.value * k
    ensures !q.Finite? ==> r == q
  {
    match q
    case Finite(v) => Finite(v * k)
    case _ => q
  }
}
