/** Option and Result types standing in for Rust's `Option`, `Result` and `Result<(), E>`. */
module Wrappers {

  datatype Option<+T> = None | Some(value: T)

  datatype Result<+R, +E> = Success(value: R) | Failure(error: E)

  /** A `Result<(), E>`: either `Ok(())` or `Err(error)`. */
  datatype Outcome<+E> = Pass | Fail(error: E)
}
