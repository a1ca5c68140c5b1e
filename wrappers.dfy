/** Option and Result, as the Rust code uses them. */
module Wrappers {

  datatype Option<+T> = None | Some(value: T)

  /** A Rust `Result` that cannot panic: a value or an error. */
  datatype Result<+T, +E> = Success(value: T) | Failure(error: E)
}
