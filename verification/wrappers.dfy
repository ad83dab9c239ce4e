/** Failure-carrying datatypes shared by the relay model. */
module Wrappers {

  /** A value that may be absent: a missing dictionary key, an empty list. */
  datatype Option<+T> = None | Some(value: T)

  /** The outcome of a step that either yields a value or raises an exception. */
  datatype Result<+R, +E> = Success(value: R) | Failure(error: E)
}
