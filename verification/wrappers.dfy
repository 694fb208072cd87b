/** Option and Result types used across the model. */
module Wrappers {

  /** A value that may be absent, like an optional field or `null`. */
  datatype Option<+T> = None | Some(value: T)

  /** Either a computed value or the reason the computation could not finish
      (the TypeScript code throws in that situation). */
  datatype Result<+T, +E> = Success(value: T) | Failure(error: E)
}
