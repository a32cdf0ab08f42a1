/** Optional values and results with an error, as used by every module of the model. */
module Base {

  /** A value that may be absent (Python's `Optional[...]` / `None`). */
  datatype Option<T> = None | Some(value: T)

  /** The outcome of an endpoint: a value, or the error it raises. */
  datatype Result<T, E> = Ok(value: T) | Err(error: E)
}
