/** Values that may be absent and computations that may fail, standing for the nil pointers and
    the error returns of the source. */
module Wrappers {
  datatype Option<+T> = None | Some(value: T)

  datatype Result<+T, +E> = Success(value: T) | Failure(error: E)
}
