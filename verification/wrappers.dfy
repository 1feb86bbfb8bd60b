/** Failure-carrying datatypes used by the cart model: an optional value and
    a result that is either a value or an error. */
module Wrappers {

  /** A value that may be absent. */
  datatype Option<+T> = None | Some(value: T)

  /** The outcome of an operation that can fail: a value or an error. */
  datatype Result<+T, +E> = Success(value: T) | Failure(error: E)
}
