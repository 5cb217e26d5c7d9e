/** Wrappers used by every module of the model. */
module Wrappers {

  /** A value that may be absent: JavaScript's `undefined`/`null`, or SQL's NULL. */
  datatype Option<+T> = None | Some(value: T) {

    /** The value, or `default` when absent (JavaScript's `x ?? default`). */
    function GetOr(default: T): T {
      match this
      case Some(v) => v
      case None => default
    }
  }

  /** The outcome of an operation that resolves with a value or rejects with an error. */
  datatype Result<+T, +E> = Ok(value: T) | Err(error: E)

  /** The outcome of an operation that resolves with nothing or rejects with an error. */
  datatype Outcome<+E> = Pass | Fail(error: E)
}
