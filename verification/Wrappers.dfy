/** A value that may be missing, and one that may have failed to come about. */
module Wrappers {
  datatype Option<T> = None | Some(value: T)

  datatype Result<T> = Success(value: T) | Failure
}
