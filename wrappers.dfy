/** Failure-carrying values: an optional handle and a Go-style `(value, error)` pair. */
module Wrappers {

  datatype Option<T> = None | Some(value: T)

  /** A value, or the text of the Go `error` that was returned instead. */
  datatype Result<T> = Ok(value: T) | Err(error: string)
}
