/** Option and Result datatypes shared by the scanner model. */
module Wrappers {

  /** A value that may be absent (JavaScript `null`). */
  datatype Option<+T> = None | Some(value: T)

  /** The outcome of an operation that can fail with a reason. */
  datatype Result<+T, +E> = Ok(value: T) | Err(error: E)
}
