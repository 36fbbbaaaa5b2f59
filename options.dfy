/** Optional values and results with an error message, used across the model. */
module Options {

  /** A Go pointer or interface that may be nil, or a value that may be absent. */
  datatype Option<+T> = None | Some(value: T)

  /** A Go `(value, error)` pair: either the value or the error's message. */
  datatype Result<+T> = Ok(value: T) | Err(error: string)
}
