/** Failure-carrying values used across the model: an optional value (Python's `None`
    or a value), and the success/exception outcome of a call that may raise. */
module Wrappers {

  datatype Option<+T> = None | Some(value: T) {
    function GetOr(default: T): T {
      match this
      case Some(v) => v
      case None => default
    }
  }

  /** The outcome of a call that either returns a value or raises an exception,
      the exception being represented by its message. */
  datatype Result<+T, +E> = Success(value: T) | Failure(error: E)

  /** The outcome of a call whose return value is not used. */
  datatype Outcome<+E> = Pass | Fail(error: E)
}
