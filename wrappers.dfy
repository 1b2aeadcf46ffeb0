/** Option and Result datatypes shared by the client modules. */
module Wrappers {

  /** A value that may be absent; stands for a Go pointer or interface that may be nil. */
  datatype Option<+T> = None | Some(value: T)

  /** A value or the error that prevented it; stands for Go's `(value, error)` pairs. */
  datatype Result<+T, +E> = Ok(value: T) | Err(error: E)
}
