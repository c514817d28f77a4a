/** Option and Result, shared by the router and the completion tracker. */
module Wrappers {

  /** A value that may be absent (`undefined` or `null` in the modelled code). */
  datatype Option<+T> = None | Some(value: T)

  /** The outcome of an operation that either returns a value or throws. */
  datatype Result<+R, +E> = Success(value: R) | Failure(error: E)
}
