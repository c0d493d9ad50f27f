/** Failure-carrying result types shared by the rest of the model. */
module Wrappers {

  /** An optional value, used for lookups and parses that may find nothing. */
  datatype Option<+T> = None | Some(value: T)

  /** The outcome of an operation that either produces a value or raises an error. */
  datatype Result<+R, +E> = Success(value: R) | Failure(error: E)
}
