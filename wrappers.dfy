/** Optional values and success-or-error results shared by the models. */
module Wrappers {

  datatype Option<+T> = None | Some(value: T)

  /** The value of a computation that either yields a value or reports an error. */
  datatype Result<+R, +E> = Success(value: R) | Failure(error: E)

  /** The outcome of an operation that changes state and either completes or reports an error. */
  datatype Outcome<+E> = Pass | Fail(error: E)
}
