/** Optional values and results shared by the whole model. */
module Prelude {

  /** An optional value (Rust's `Option`). */
  datatype Option<T> = None | Some(value: T)

  /** The result of an operation that may fail (Rust's `Result`). */
  datatype Result<T, E> = Ok(value: T) | Err(error: E)
}
