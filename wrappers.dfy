/** Wrappers used across the model: an optional value (Go's fields
    that may be nil) and a value-or-error result (Go's `(T, error)` returns). */
module Wrappers {

  datatype Option<+T> = None | Some(value: T)

  datatype Result<+T> = Ok(value: T) | Err(error: string)
}
