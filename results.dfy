/** Optional values and fallible results, standing in for Go's nil pointers and (value, error) pairs. */
module Results {

  datatype Option<+T> = None | Some(value: T)

  /** Ok carries the value a Go function returns with a nil error; Err carries the error. */
  datatype Result<+T, +E> = Ok(value: T) | Err(error: E)
}
