/** Optional values (Python's `None`) and outcomes that either succeed or raise. */
module Wrappers {

  /** A value that may be absent, as a nullable column or a missing `cleaned_data` key. */
  datatype Option<+T> = None | Some(value: T)

  /** The outcome of a validation step: the cleaned value, or the error it raises. */
  datatype Result<+T, +E> = Ok(value: T) | Err(error: E)
}
