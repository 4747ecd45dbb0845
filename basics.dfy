/** Small value types shared by the rest of the model. */
module Basics {

  /** A value that may be absent: a Go nil pointer, a failed lookup. */
  datatype Option<+T> = None | Some(value: T)

  /** A Go `(value, error)` pair in which exactly one side is meaningful. */
  datatype Result<+T, +E> = Success(value: T) | Failure(error: E)

  /** A Go `byte`. */
  newtype byte = b: int | 0 <= b < 256
}
