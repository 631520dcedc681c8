/** Option and Result datatypes used across the model in place of
    `null`/`None` and of raised exceptions. */
module Wrappers {

  /** A value that may be absent: TypeScript's `T | null`, Python's `T | None`. */
  datatype Option<+T> = None | Some(value: T) {

    /** The value, or `default` when absent. */
    function GetOr(default: T): T {
      match this
      case Some(v) => v
      case None => default
    }
  }

  /** The outcome of an operation that either returns a value or raises. */
  datatype Result<+T, +E> = Ok(value: T) | Err(error: E)
}
