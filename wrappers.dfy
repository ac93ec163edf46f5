/** Failure-carrying datatypes used for the exceptions the poller raises. */
module Wrappers {

  datatype Option<+T> = None | Some(value: T)

  datatype Result<+T, +E> = Success(value: T) | Failure(error: E)

  /** A step that either returns normally or raises `error`. */
  datatype Outcome<+E> = Pass | Fail(error: E)
}
