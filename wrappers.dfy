/** Optional values and results with an error, shared by every module of the model. */
module Wrappers {

  /** A value that may be absent (JavaScript `undefined` / `null`). */
  datatype Option<+T> = None | Some(value: T)

  /** The outcome of an operation that can throw: a value, or the message of the error thrown. */
  datatype Result<+T> = Ok(value: T) | Err(message: string)
}
