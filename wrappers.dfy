/** Option and Result, the two wrappers the model uses for `null`/`undefined` and thrown errors. */
module Wrappers {

  /** A value that may be absent: JavaScript's `null` or `undefined`. */
  datatype Option<+T> = None | Some(value: T)

  /** The outcome of an operation that may throw: its value, or the error it raised. */
  datatype Result<+T, +E> = Success(value: T) | Failure(error: E)
}
