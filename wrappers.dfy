/** Optional values and results with an error, as the Go `(value, error)`
    pairs and the Python exceptions of the booking system are modelled. */
module Wrappers {

  datatype Option<+T> = None | Some(value: T)

  datatype Result<+T, +E> = Ok(value: T) | Err(error: E)
}
