/** Option and Result, the two Rust enums the model needs. */
module Wrappers {

  /** Rust's Option<T>. */
  datatype Option<+T> = None | Some(value: T)

  /** Rust's Result<T, E>. */
  datatype Result<+T, +E> = Success(value: T) | Failure(error: E)
}
