/**
  The parts of JavaScript's number type that the assessment logic observes.
  A string read by `Number(...)` or `parseFloat(...)` yields either a finite
  value, one of the two infinities, or NaN; every comparison with NaN is false.
  The conversions themselves are not modelled: the components that use them
  take them as parameters of type `string -> JsNumber`.
 */
module JsNumbers {

  datatype JsNumber = NaN | PosInfinity | NegInfinity | Finite(value: real)

  /** JavaScript `x > t` for a finite right-hand side `t` */
  predicate GreaterThan(x: JsNumber, t: real) {
    match x
    case Finite(v) => v > t
    case PosInfinity => true
    case NegInfinity => false
    case NaN => false
  }

  /** JavaScript `x < 0` */
  predicate Negative(x: JsNumber) {
    match x
    case Finite(v) => v < 0.0
    case NegInfinity => true
    case PosInfinity => false
    case NaN => false
  }

  /** JavaScript `Math.min(a, b)` on finite operands */
  function Min(a: real, b: real): (m: real)
    ensures m <= a && m <= b
    ensures m == a || m == b
  {
    if a <= b then a else b
  }
}
