/** Optional values and failures, standing in for JavaScript's `null`/`undefined`
    results and for the exceptions a render can throw. */
module Wrappers {

  /** `None` plays the role of `null` or `undefined`. */
  datatype Option<+T> = None | Some(value: T) {

    /** The value, or a default when there is none (JavaScript's `x || d` for non-falsy values). */
    function GetOr(default: T): T {
      match this
      case Some(v) => v
      case None => default
    }
  }

  /** The outcome of a render that may throw. */
  datatype Result<+R, +E> = Success(value: R) | Failure(error: E)
}
