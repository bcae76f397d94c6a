/** Nil-able values and (value, error) returns, in the shapes the Go code uses them. */
module Wrappers {

  /** A value that may be nil. */
  datatype Option<+T> = None | Some(value: T)

  /** A Go `(T, error)` pair where exactly one side is meaningful. */
  datatype Result<+T, +E> = Ok(value: T) | Err(error: E)
}
