/**
 * JavaScript values that the planner's code branches on: `null`/`undefined`
 * versus a present value, and the numbers that `Number(...)` and `parseInt`
 * produce.
 */
module JsValues {

  /** A value that may be `null` or `undefined` (None) or present (Some). */
  datatype Option<+T> = None | Some(value: T)
  {
    /** `x ?? fallback` */
    function OrElse(fallback: T): T {
      match this
      case Some(v) => v
      case None => fallback
    }
  }

  /**
   * A JavaScript number as the modelled code sees it: NaN or a finite value.
   * Doubles are modelled as exact reals; infinities are not modelled.
   */
  datatype JsNumber = NaN | Finite(value: real)

  /** `Number.isInteger(n)` */
  predicate IsInteger(n: JsNumber) {
    n.Finite? && n.value.Floor as real == n.value
  }

  /** `Boolean(n)`: NaN and 0 are falsy. */
  predicate NumberTruthy(n: JsNumber) {
    n.Finite? && n.value != 0.0
  }

  /** The JavaScript number denoting the integer `i`. */
  function FromInt(i: int): (n: JsNumber)
    ensures IsInteger(n) && n.value.Floor == i
  {
    Finite(i as real)
  }
}
