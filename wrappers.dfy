/** Option and Result: JavaScript's `null` and thrown errors, made explicit. */
module Wrappers {
  datatype Option<+T> = None | Some(value: T)

  datatype Result<+R, +E> = Success(value: R) | Failure(error: E)
}
