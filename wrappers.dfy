/** Option and Result, the two failure-carrying datatypes the rest of the model uses. */
module Wrappers {

  /** A value that may be absent; stands for JavaScript's null/undefined. */
  datatype Option<+T> = None | Some(value: T) {

    /** The value if present, else the given default. */
    function GetOr(default: T): T {
      match this
      case Some(v) => v
      case None => default
    }
  }

  /** The outcome of an operation that reports an error through a callback. */
  datatype Result<+T, +E> = Ok(value: T) | Err(error: E)
}
