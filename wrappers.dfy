/** Optional values and typed outcomes shared by the handlers. */
module Wrappers {

  /** A value that may be absent (Python `None`, a nullable column). */
  datatype Option<+T> = None | Some(value: T)

  /** Either a result or the error the handler raises instead. */
  datatype Result<+R, +E> = Ok(value: R) | Err(error: E)
}
