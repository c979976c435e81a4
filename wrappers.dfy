/** Optional values and the outcome of a service call that may throw. */
module Wrappers {

  /** A value that may be absent (`null`, `undefined` or a missing key). */
  datatype Option<T> = None | Some(value: T)

  /** A service call either resolves with a value or rejects with an error message. */
  datatype Result<T> = Ok(value: T) | Err(message: string)
}
