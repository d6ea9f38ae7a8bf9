/** Option and Result values shared by the modules of this model. */
module Wrappers {

  datatype Option<+T> = None | Some(value: T)

  /** The outcome of a call that may raise: a value, or the exception it raises. */
  datatype Result<+R, +E> = Success(value: R) | Failure(error: E)
}
