/** Optional values and results with an error, the two shapes the JavaScript code expresses
    with `undefined` and with `throw`. */
module Wrappers {

  /** A value that may be absent (`undefined` or `null` on the JavaScript side). */
  datatype Option<+T> = None | Some(value: T) {

    /** The value, or `default` when absent. */
    function GetOr(default: T): T {
      match this
      case Some(v) => v
      case None => default
    }
  }

  /** The outcome of an operation that may throw: a value or the thrown error. */
  datatype Result<+T, +E> = Success(value: T) | Failure(error: E)
}
