/** Failure-carrying results shared by the modules of the model. */
module Wrappers {

  datatype Option<+T> = None | Some(value: T)

  /** A value, or the Python exception that stopped the computation. */
  datatype Result<+T, +E> = Success(value: T) | Failure(error: E)
}
