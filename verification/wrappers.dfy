/** Optional values and results with an error, shared by every module of the model. */
module Wrappers {

  /** `null` or a value, as the client's state holds it. */
  datatype Option<+T> = None | Some(value: T)

  /** A value, or the error that was raised instead of producing it. */
  datatype Result<+T, +E> = Ok(value: T) | Err(error: E)
}
