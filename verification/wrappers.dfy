/** Option and Result: the absent value and the error path of the batch driver. */
module Wrappers {

  /** A value that may be missing (an optional configuration field, a date that did not parse). */
  datatype Option<+T> = None | Some(value: T) {

    /** The value, or `default` when it is missing. */
    function GetOr(default: T): T {
      match this
      case Some(v) => v
      case None => default
    }
  }

  /** The outcome of an operation that raises on bad input in the original program. */
  datatype Result<+R, +E> = Success(value: R) | Failure(error: E)
}
