/** Failure-carrying results: a thrown exception of the modelled code becomes a
    `Failure` or `Fail` value carrying the error, a normal return a `Success` or
    `Pass`. */
module Wrappers {

  /** The outcome of an operation that returns a value or fails. */
  datatype Result<+T, +E> = Success(value: T) | Failure(error: E)

  /** The outcome of an operation that returns nothing or fails. */
  datatype Outcome<+E> = Pass | Fail(error: E)
}
