/** Option and Result, the two failure-carrying shapes the model needs. */
module Wrappers {

  /** `None` stands for JavaScript's `undefined` / `null`. */
  datatype Option<+T> = None | Some(value: T)

  /** `Failure` stands for an exception thrown out of the request handler. */
  datatype Result<+T, +E> = Success(value: T) | Failure(error: E)
}
