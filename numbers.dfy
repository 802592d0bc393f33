/**
 * The numbers a form field yields after JavaScript's unary `+` (script.js:146-147,
 * script.js:151, script.js:167). A finite value is kept as an exact real; the three
 * non-finite IEEE-754 values are kept as markers, so that the two tests the
 * validation applies, `Number.isFinite(n)` and `n > 0`, can be stated exactly.
 */
module JsNumbers {
  datatype Num = Finite(value: real) | NaN | PosInfinity | NegInfinity

  /** `Number.isFinite(n)` */
  predicate IsFinite(n: Num) {
    n.Finite?
  }

  /** `n > 0` with JavaScript's comparison: NaN compares false, +Infinity true. */
  predicate IsPositive(n: Num) {
    match n
    case Finite(x) => x > 0.0
    case PosInfinity => true
    case NaN => false
    case NegInfinity => false
  }
}
