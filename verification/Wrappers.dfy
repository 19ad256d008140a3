/** Failure-compatible result types shared by every module of the model. */
module Wrappers {

  datatype Option<+T> = None | Some(value: T)

  /** The source's exceptions: a value, or the one error kind the module raises. */
  datatype Result<+T, +E> = Ok(value: T) | Err(error: E)
}
