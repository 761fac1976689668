/** Failure-carrying result types shared by the identifier parsers. */
module Wrappers {

  datatype Option<+T> = None | Some(value: T)

  /** A value, or the error a Go function would have returned beside a nil value. */
  datatype Result<+T, +E> = Ok(value: T) | Err(error: E)

  /** A check that either passes or reports an error (a Go function returning only `error`). */
  datatype Outcome<+E> = Pass | Fail(error: E)
}
