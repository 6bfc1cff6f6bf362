/** Failure-carrying values used throughout the model. */
module Wrappers {

  /** A value that may be absent: a nil pointer or a missing optional field. */
  datatype Option<+T> = None | Some(value: T)

  /** The `(value, error)` pair a Go function returns. */
  datatype Result<+T, +E> = Ok(value: T) | Err(error: E)

  /** The bare `error` a Go function returns: nil (Pass) or an error. */
  datatype Outcome<+E> = Pass | Fail(error: E)
}
