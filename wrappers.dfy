/** Failure-carrying values shared by the other modules. */
module Wrappers {

  /** A value that may be absent: Python's `None` or a dictionary miss. */
  datatype Option<+T> = None | Some(value: T) {
    /** The value, or `default` when absent (Python's `dict.get(key, default)`). */
    function GetOr(default: T): T {
      match this
      case Some(v) => v
      case None => default
    }
  }

  /** The outcome of a step that may raise: a value or a description of what went wrong. */
  datatype Result<+T, +E> = Ok(value: T) | Err(error: E)
}
