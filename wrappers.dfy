/** Optional values and results, the model's stand-ins for `undefined`/`null` and for thrown errors. */
module Wrappers {

  /** A value that may be absent: a missing JSON field, a nullable column, an unset variable. */
  datatype Option<+T> = None | Some(value: T)

  /** The outcome of an operation that either produces a value or fails with an error. */
  datatype Result<+T, +E> = Ok(value: T) | Err(error: E)
}
