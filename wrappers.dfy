/** Wrappers shared by the whole model. */
module Wrappers {

  /** A value that may be missing: a JavaScript `undefined` field or argument. */
  datatype Option<+T> = None | Some(value: T)

  /** The outcome of an operation that may throw. */
  datatype Result<+R, +E> = Success(value: R) | Failure(error: E)
}
