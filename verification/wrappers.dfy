/** Failure-carrying results, used where the library throws. */
module Wrappers {

  /** An optional value: the outcome of a lookup that may find nothing. */
  datatype Option<+T> = None | Some(value: T)

  /** Either a value or the error the library would have thrown instead. */
  datatype Result<+T, +E> = Ok(value: T) | Err(error: E)
}
