/** Optional values, as Python's `None` or a value, and results that may be errors. */
module Wrappers {

  datatype Option<+T> = None | Some(value: T) {

    function GetOr(default: T): T {
      match this
      case Some(v) => v
      case None => default
    }
  }

  /** A value, or the exception the Python code would raise (or report) instead. */
  datatype Result<+T, +E> = Success(value: T) | Failure(error: E)
}
