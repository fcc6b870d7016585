/** Failure-compatible result type used for the exceptions the workout layer raises. */
module Wrappers {

  /** Either a computed value or the error that the computation raised. */
  datatype Result<+R, +E> = Success(value: R) | Failure(error: E)
}
