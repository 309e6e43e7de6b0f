/** Optional values and results, used for the builder's nullable fields and for validation. */
module Wrappers {

  /** A value that may be absent: Swift's `T?`. */
  datatype Option<+T> = None | Some(value: T)

  /** The outcome of a check that either yields a value or fails with an error. */
  datatype Result<+R, +E> = Success(value: R) | Failure(error: E)
}
