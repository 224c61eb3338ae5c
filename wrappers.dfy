/** Optional values and results with an error, as used across the model. */
module Wrappers {

  datatype Option<+T> = None | Some(value: T)

  /** The outcome of an operation that may throw: a value, or the error it raised. */
  datatype Result<+T, +E> = Ok(value: T) | Err(error: E)

}
