/** The optional and fallible values shared by the modules of this project. */
module Wrappers {

  /** An optional value (Python's `None`). */
  datatype Option<T> = None | Some(value: T)

  /** A value, or the error that was raised instead of it. */
  datatype Result<T, E> = Ok(value: T) | Err(error: E)
}
