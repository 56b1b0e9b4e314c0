/** Failure-carrying values shared by the modules of this model. */
module Wrappers {

  /** A value that may be absent (Python's `None` or a failed search). */
  datatype Option<+T> = None | Some(value: T)

  /** The outcome of a call that either returns a value or raises an error with a message. */
  datatype Result<+T, +E> = Success(value: T) | Failure(error: E)
}
