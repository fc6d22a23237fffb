/** Optional values and results with an error, used for JSON nulls and Python exceptions. */
module Wrappers {

  /** A value that may be absent (a JSON null or a missing key). */
  datatype Option<T> = None | Some(value: T)

  /** The outcome of an operation that may raise instead of returning. */
  datatype Result<T, E> = Ok(value: T) | Err(error: E)
}
