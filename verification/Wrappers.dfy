/** The optional value used for nullable columns, missing rows and missing dictionary keys. */
module Wrappers {

  datatype Option<+T> = None | Some(value: T)

  /** What a request or job hands back: a value, or the exception the source raises. */
  datatype Result<+T, +E> = Ok(value: T) | Err(error: E)
}
