/** Optional values and error returns, standing in for Go's nil and its (value, error) pairs. */
module Wrappers {

  datatype Option<+T> = None | Some(value: T)

  /** A Go call that returns `(value, nil)` is `Ok(value)`; one that returns `(_, err)` is `Err(err)`. */
  datatype Result<+T, +E> = Ok(value: T) | Err(error: E)
}
