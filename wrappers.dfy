/** Option and Result values used across the model for the source's
    "maybe absent" fields and its rejected promises. */
module Wrappers {

  datatype Option<+T> = None | Some(value: T)

  datatype Result<+R, +E> = Success(value: R) | Failure(error: E)
}
