/** Failure-carrying values used throughout the model in place of Go's
    `(value, error)` pairs and nil-able results. */
module Wrappers {

  datatype Option<+T> = None | Some(value: T)

  datatype Result<+T, +E> = Ok(value: T) | Err(error: E)
}
