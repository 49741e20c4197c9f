/** Option and Result values used across the model for "may be absent" and
    "may fail" returns of the original code (Python's None and exceptions). */
module Wrappers {

  datatype Option<+T> = None | Some(value: T) {
    /** Python's `x or default` for a value that may be None. */
    function GetOr(default: T): T {
      match this
      case Some(v) => v
      case None => default
    }
  }

  datatype Result<+R, +E> = Ok(value: R) | Err(error: E)

  /** The outcome of a check that either passes or raises. */
  datatype Outcome<+E> = Pass | Fail(error: E)
}
