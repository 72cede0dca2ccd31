/** The two wrapper types the model uses for absent values and for failures. */
module Wrappers {

  /** A session slot that Python holds as `None` or as a value. */
  datatype Option<+T> = None | Some(value: T)

  /** The outcome of a call that either returns a value or raises an exception with a message. */
  datatype Result<+T, +E> = Success(value: T) | Failure(error: E)
}
