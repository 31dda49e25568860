/** Option and Result, used for values that may be absent and for operations that can fail. */
module Wrappers {

  /** A value that may be absent (JavaScript's undefined, Python's None). */
  datatype Option<T> = None | Some(value: T) {
    function GetOr(default: T): T {
      match this
      case Some(v) => v
      case None => default
    }
  }

  /** The outcome of an operation that either succeeds with a value or fails with an error. */
  datatype Result<T, E> = Ok(value: T) | Err(error: E)
}
