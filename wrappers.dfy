/** Option and Result values shared by the modules of this model. */
module Wrappers {

  datatype Option<+T> = None | Some(value: T)

  /** A Python call that returns `value`, or raises `error`. */
  datatype Result<+T, +E> = Success(value: T) | Failure(error: E)
}
