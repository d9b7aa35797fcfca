/** Option and Result values, used in place of PHP's `null` and of thrown exceptions. */
module Wrappers {

  /** A value that may be absent (`null` in the PHP record). */
  datatype Option<T> = None | Some(value: T)

  /** Either a value or the error that aborted the whole operation. */
  datatype Result<T, E> = Ok(value: T) | Err(error: E)
}
