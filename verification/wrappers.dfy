/** Option and Result, as the engine uses Rust's `Option` and a panic-free error path. */
module Wrappers {

  datatype Option<+T> = None | Some(value: T)

  datatype Result<+R, +E> = Success(value: R) | Failure(error: E)
}
