/** Success-or-error values, standing in for Python's "return the value or raise". */
module Wrappers {

  /** Either the computed value or the error that would have been raised. */
  datatype Result<+T, +E> = Success(value: T) | Failure(error: E)
}
