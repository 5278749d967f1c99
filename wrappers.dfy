/** Option, result and outcome types for the source's `None` returns and raised errors. */
module Wrappers {

  /** A value that may be absent (Python's `Optional`, with `None` for absence). */
  datatype Option<+T> = None | Some(value: T)

  /** A computed value or the error the source raises instead. */
  datatype Result<+T, +E> = Ok(value: T) | Err(error: E)

  /** An operation that either completes or raises an error. */
  datatype Outcome<+E> = Pass | Fail(error: E)
}
