/** Option and Result, the two shapes in which the system reports absence and failure. */
module Wrappers {

  /** An element that may be missing (Rust's `Option`). */
  datatype Option<+T> = None | Some(value: T)

  /** A value or an error (Rust's `Result`). */
  datatype Result<+T, +E> = Ok(value: T) | Err(error: E)
}
