/** Optional values and success-or-error results shared by the model's modules. */
module Wrappers {

  /** A value that may be absent: Go's nil pointer, nil error or nil slice. */
  datatype Option<+T> = None | Some(value: T)

  /** The outcome of a Go call returning `(T, error)`. */
  datatype Result<+T, +E> = Ok(value: T) | Err(error: E)
}
