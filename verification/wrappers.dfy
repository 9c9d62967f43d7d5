/** Failure-compatible wrappers: Option where the source returns "nothing
    found", Result where it raises. */
module Wrappers {

  datatype Option<+T> = None | Some(value: T)

  datatype Result<+T, +E> = Success(value: T) | Failure(error: E)

}
