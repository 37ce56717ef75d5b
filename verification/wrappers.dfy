/** Failure-carrying datatypes shared by every module of the model. */
module Wrappers {

  /** An optional value: Rust's `Option<T>`. */
  datatype Option<+T> = None | Some(value: T)

  /** A value or an error: Rust's `Result<T, E>`. */
  datatype Result<+R, +E> = Ok(value: R) | Err(error: E)
}
