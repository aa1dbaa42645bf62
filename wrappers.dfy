/** Option and Result values used for the source's null pointers, missing
    map entries and raised exceptions. */
module Wrappers {
  datatype Option<T> = None | Some(value: T)

  datatype Result<T, E> = Ok(value: T) | Err(error: E)
  {
    predicate IsFailure() { Err? }
  }
}
