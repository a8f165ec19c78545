/** Optional values and results with an error message. */
module Wrappers {

  datatype Option<T> = None | Some(value: T)

  /** A value, or the message of the exception the source raises instead. */
  datatype Result<T> = Ok(value: T) | Err(message: string)
}
