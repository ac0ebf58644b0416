/** Error-carrying results, as Go's `(value, error)` pairs are used throughout the system. */
module Wrappers {

  datatype Option<+T> = None | Some(value: T)

  /** `Err` carries the text that Go's `error.Error()` would return. */
  datatype Result<+T> = Ok(value: T) | Err(msg: string)
}
