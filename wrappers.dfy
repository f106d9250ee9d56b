/** Option and Result, the two failure-compatible shapes the model uses. */
module Wrappers {

  /** A value that may be missing; also Python's `X | None`. */
  datatype Option<+T> = None | Some(value: T)

  /** The outcome of an operation that can fail with an error value. */
  datatype Result<+T, +E> = Ok(value: T) | Err(error: E)
}
