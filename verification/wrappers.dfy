/** Result types shared by the store and the server. */
module Wrappers {

  /** An optional value: Go's nil pointer versus a pointer to a value. */
  datatype Option<+T> = None | Some(value: T)

  /** A value-carrying result: Go's `(value, error)` pair. */
  datatype Result<+T, +E> = Success(value: T) | Failure(error: E)

  /** A result without a value: Go's plain `error` return, nil on success. */
  datatype Outcome<+E> = Pass | Fail(error: E)
}
