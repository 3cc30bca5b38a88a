/** Option and Result, the two failure-carrying datatypes the model is written with. */
module Wrappers {

  datatype Option<+T> = None | Some(value: T)

  /** The outcome of a PHP call: the value it returns, or the exception it throws. */
  datatype Result<+R, +E> = Success(value: R) | Failure(error: E)
}
