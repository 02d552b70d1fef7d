/** Failure-carrying result types shared by the modules of this model. */
module Wrappers {

  /** A value that may be absent: pandas' missing value (NaN) in a column, or Python's None. */
  datatype Option<T> = None | Some(value: T)

  /** Either a value or the exception that the Python code would raise instead. */
  datatype Result<T, E> = Success(value: T) | Failure(error: E)

  /** Success without a value, or the exception raised. */
  datatype Outcome<E> = Pass | Fail(error: E)
}
