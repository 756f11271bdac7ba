/** Failure-carrying datatypes shared by the registry and the poller. */
module Wrappers {

  /** A value that may be absent: a nil pointer, a key not in a map, an event not sent. */
  datatype Option<+T> = None | Some(value: T)

  /** The result of a call that either produces a value or fails with an error. */
  datatype Result<+R, +E> = Success(value: R) | Failure(error: E)

  /** The result of a call that returns only an error (nil on success). */
  datatype Outcome<+E> = Pass | Fail(error: E)
}
