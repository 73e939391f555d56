/** Option and Result, used by every module for nullable values and for raised exceptions. */
module Wrappers {

  /** A nullable value: Python's `None` / JavaScript's `null` and `undefined`. */
  datatype Option<+T> = None | Some(value: T) {
    function GetOr(default: T): T {
      match this
      case Some(v) => v
      case None => default
    }
  }

  /** The outcome of an operation that either returns a value or raises. */
  datatype Result<+T, +E> = Success(value: T) | Failure(error: E)
}
