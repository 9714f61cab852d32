/** The optional value and the fallible result the other modules use for Go's `value, ok` and `value, err` pairs. */
module Wrappers {
  datatype Option<+T> = None | Some(value: T)

  datatype Result<+T, +E> = Success(value: T) | Failure(error: E)
}
