/** Optional values and results, standing in for JavaScript's null/undefined
    and for thrown exceptions. */
module Wrappers {

  /** `None` plays the part of JavaScript's `null` and `undefined`. */
  datatype Option<+T> = None | Some(value: T) {

    /** The value, or `default` when there is none (JavaScript's `??`). */
    function GetOr(default: T): T {
      match this
      case Some(v) => v
      case None => default
    }
  }

  /** The outcome of a call that may throw. */
  datatype Result<+R, +E> = Success(value: R) | Failure(error: E)
}
