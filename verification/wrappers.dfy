/** Failure-carrying values shared by the whole model. */
module Wrappers {

  /** A value that may be absent: a Go nil pointer or an unset optional field. */
  datatype Option<+T> = None | Some(value: T)

  /** Either a value or an error: a Go `(value, error)` pair in which exactly one side is set. */
  datatype Result<+T, +E> = Success(value: T) | Failure(error: E)

  /** The outcome of an external step that returns only an error (nil on success). */
  datatype Status = Ok | Failed(cause: string)
}
