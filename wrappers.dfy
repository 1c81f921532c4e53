/** Failure-compatible wrappers shared by the whole model. */
module Wrappers {

  /** An optional value: a C++ null pointer, an empty std::optional or a failed lookup is None. */
  datatype Option<+T> = None | Some(value: T)

  /** The outcome of an operation that may throw: Failure carries the exception's message. */
  datatype Result<+T, +E> = Success(value: T) | Failure(error: E)
}
