/** Outcome types for operations that can fail or have nothing to return. */
module Wrappers {

  datatype Option<T> = None | Some(value: T)

  /** A value, or the error the source raises instead of returning one. */
  datatype Result<T, E> = Ok(value: T) | Err(error: E)
}
