/** Option and Result, for the source's `None` returns and raised errors. */
module Wrappers {

  datatype Option<+T> = None | Some(value: T)

  datatype Result<+T, +E> = Success(value: T) | Failure(error: E)

  /** A check that passes or fails with an error, for operations that return nothing. */
  datatype Outcome<+E> = Pass | Fail(error: E)
}
