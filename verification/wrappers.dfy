/** Option and Result, used across the model. */
module Wrappers {

  /** A value that may be absent: a missing JSON key, an unset environment variable, a Python `None`. */
  datatype Option<+T> = None | Some(value: T) {

    /** The wrapped value, or `default` when absent. */
    function GetOr(default: T): T {
      match this
      case Some(v) => v
      case None => default
    }
  }

  /** Either a value or the error that stopped the computation (a user alert, an HTTP error). */
  datatype Result<+R, +E> = Success(value: R) | Failure(error: E)
}
