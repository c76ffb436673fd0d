/** Optional values and results with an error, as used throughout the model. */
module Wrappers {

  /** Ruby's `nil` or a value. */
  datatype Option<+T> = None | Some(value: T) {
    function GetOr(default: T): T {
      match this
      case Some(v) => v
      case None => default
    }
  }

  /** The value of an operation, or the error that aborts it. */
  datatype Result<+T, +E> = Success(value: T) | Failure(error: E)
}
