/** Failure-compatible wrappers shared by the client and the server models. */
module Wrappers {

  datatype Option<+T> = None | Some(value: T)

  /** A value, or the error that was raised instead of producing it. */
  datatype Result<+R, +E> = Success(value: R) | Failure(error: E)

  /** The outcome of a call that returns nothing: it finished, or it raised `error`. */
  datatype Outcome<+E> = Pass | Fail(error: E)
}
