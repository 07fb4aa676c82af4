/** Optional values: a JavaScript `null`/`undefined`/`NaN` is `None`. */
module Wrappers {

  datatype Option<+T> = None | Some(value: T)
  {
    /** The value, or `d` when there is none (`x ?? d`). */
    function GetOr(d: T): T {
      match this
      case Some(v) => v
      case None => d
    }
  }

  /** `x || 0` on a number that may be missing or `NaN`: both give 0, and so does 0 itself. */
  function OrZero(x: Option<real>): real {
    match x
    case Some(v) => v
    case None => 0.0
  }
}
