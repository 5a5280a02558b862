/** Failure-carrying datatypes shared by the model. */
module Wrappers {

  /** A value that may be missing: JavaScript's `T | null`. */
  datatype Option<+T> = None | Some(value: T)

  /** The outcome of a call that either returns a value or throws. */
  datatype Result<+R, +E> = Success(value: R) | Failure(error: E)
}
