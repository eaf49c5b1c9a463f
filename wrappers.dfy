/** Optional values and handler outcomes. */
module Wrappers {

  /** Rust's `Option<T>`. */
  datatype Option<+T> = None | Some(value: T)

  /** The outcome of a message handler: it runs to completion, or it panics. */
  datatype Result<+R, +E> = Success(value: R) | Failure(error: E)
}
