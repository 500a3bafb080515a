/** Option and Result, the two failure-carrying shapes the model needs:
    an optional JSON field, and the outcome of something that may throw. */
module Wrappers {

  datatype Option<+T> = None | Some(value: T)

  datatype Result<+R, +E> = Success(value: R) | Failure(error: E)
}
