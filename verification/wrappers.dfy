/** Failure-carrying values used in place of Python's `None` and raised exceptions. */
module Wrappers {

  /** A value that may be absent, as Python's `None` stands for "no value". */
  datatype Option<+T> = None | Some(value: T)

  /** The result of a call that either returns a value or raises an error. */
  datatype Result<+T, +E> = Success(value: T) | Failure(error: E)
}
