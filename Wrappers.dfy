/** Option and Result: the null references and the thrown exceptions of the listener code. */
module Wrappers {

  /** A value that may be absent (a C# null reference). */
  datatype Option<+T> = None | Some(value: T)

  /** A value, or the exception that was thrown instead of producing it. */
  datatype Result<+R, +E> = Success(value: R) | Failure(error: E)
}
