/** Option and Result, used for nullable fields and for thrown errors. */
module Wrappers {

  datatype Option<+T> = None | Some(value: T)

  /** The outcome of a call that may throw: its value, or what it threw. */
  datatype Result<+R, +E> = Success(value: R) | Failure(error: E)
}
