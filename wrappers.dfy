/** The wrappers used across the model: an optional value, and a value or an
    error (Go's `(T, error)` pair). */
module Wrappers {

  datatype Option<+T> = None | Some(value: T)

  datatype Result<+T, +E> = Ok(value: T) | Err(error: E)
}
