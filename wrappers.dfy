/** Optional values and results with an error, as used throughout the model. */
module Wrappers {

  /** A value that may be absent (a TypeScript optional field, `undefined`). */
  datatype Option<+T> = None | Some(value: T)

  /** The outcome of an operation that either yields a value or fails with an error. */
  datatype Result<+R, +E> = Success(value: R) | Failure(error: E)
}
