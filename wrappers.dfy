/** Optional values and results with an error, used for JavaScript's null and for thrown errors. */
module Wrappers {

  datatype Option<+T> = None | Some(value: T) {
    /** The value, or `default` when there is none (a `catch` that substitutes a value). */
    function GetOr(default: T): T {
      match this
      case Some(v) => v
      case None => default
    }
  }

  /** The outcome of a block that either completes with a value or throws an error. */
  datatype Result<+R, +E> = Success(value: R) | Failure(error: E)
}
