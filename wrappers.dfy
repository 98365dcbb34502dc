/** Option and Result values shared by the backend and frontend models. */
module Wrappers {

  /** A value that may be absent (`undefined` in the source). */
  datatype Option<+T> = None | Some(value: T)

  /** The outcome of a call that may fail (a resolved or rejected promise). */
  datatype Result<+T, +E> = Ok(value: T) | Err(error: E)
}
