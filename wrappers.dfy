/** Failure-carrying return values shared by the training and serving modules. */
module Wrappers {

  /** A value that may be absent (a missing dictionary key, a NaN cell). */
  datatype Option<+T> = None | Some(value: T)

  /** The outcome of an operation that can raise. */
  datatype Result<+R, +E> = Success(value: R) | Failure(error: E)
}
