/** Option and Result, the two wrappers the model uses for an optional value and for a verdict that may be an error. */
module Wrappers {

  datatype Option<+T> = None | Some(value: T)

  datatype Result<+R, +E> = Success(value: R) | Failure(error: E)
}
