/** Result types shared by the models. */
module Wrappers {

  datatype Option<+T> = None | Some(value: T)

  /** A computed value, or the error the source raises. */
  datatype Result<+T, +E> = Ok(value: T) | Err(error: E)
}
