/**
 * What Python's `float(...)` can hand the validator: a finite number, NaN, or
 * an infinity, and how `<`, `<=` and `>` against a number behave on it (IEEE 754:
 * every comparison with NaN is false).
 */
module Floats {

  datatype Float = Finite(value: real) | NaN | Infinity(negative: bool)

  /** `x < c` */
  predicate Less(x: Float, c: real) {
    match x
    case Finite(v) => v < c
    case NaN => false
    case Infinity(negative) => negative
  }

  /** `x <= c` */
  predicate AtMost(x: Float, c: real) {
    match x
    case Finite(v) => v <= c
    case NaN => false
    case Infinity(negative) => negative
  }

  /** `x > c` */
  predicate Greater(x: Float, c: real) {
    match x
    case Finite(v) => v > c
    case NaN => false
    case Infinity(negative) => !negative
  }

  /**
   * On numbers the comparisons are the order of the reals; NaN is neither
   * below, at most, nor above anything, so `x <= c` and `x > c` can both be false.
   */
  lemma ComparisonFacts(x: Float, c: real)
    ensures x.Finite? ==> (Less(x, c) <==> x.value < c) && (AtMost(x, c) <==> x.value <= c) && (Greater(x, c) <==> x.value > c)
    ensures !x.NaN? ==> (AtMost(x, c) <==> !Greater(x, c))
    ensures x.NaN? ==> !Less(x, c) && !AtMost(x, c) && !Greater(x, c)
  {
  }
}
