/** Failure-carrying result type used wherever the trading cycle can raise. */
module Wrappers {

  datatype Result<+R, +E> = Success(value: R) | Failure(error: E)
}
