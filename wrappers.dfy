/** The Option and Result datatypes shared by the other modules. */
module Wrappers {

  /** A value that may be absent (Python's `None`). */
  datatype Option<+T> = None | Some(value: T)

  /** A value or the error that was raised instead of producing it. */
  datatype Result<+R, +E> = Success(value: R) | Failure(error: E)
}
