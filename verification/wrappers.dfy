/** The Option and Result types shared by the model: an optional value and a
    value-or-error result. */
module Wrappers {

  /** A value that may be absent (PHP `null`, an unset property). */
  datatype Option<+T> = None | Some(value: T)

  /** The outcome of an operation that can raise. */
  datatype Result<+T, +E> = Success(value: T) | Failure(error: E)
}
