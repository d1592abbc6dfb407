/** Optional values and results, the model's stand-in for JavaScript's
    `undefined`/`null` and for exceptions. */
module Wrappers {

  /** A value that may be absent (`undefined` or `null` in the source). */
  datatype Option<+T> = None | Some(value: T) {
    /** The value, or `default` when absent (JavaScript's `x ?? default`). */
    function GetOr(default: T): T {
      match this
      case Some(v) => v
      case None => default
    }
  }

  /** The outcome of code that may throw: `Success` or the thrown `Failure`. */
  datatype Result<+R, +E> = Success(value: R) | Failure(error: E)
}
