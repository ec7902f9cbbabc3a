/** Option and Result, used for nil values and for errors the handler catches. */
module Wrappers {

  /** A value that may be absent (JavaScript `null` or `undefined`). */
  datatype Option<+T> = None | Some(value: T)

  /** The outcome of an awaited call: a value, or the message of the error it threw. */
  datatype Result<+T, +E> = Success(value: T) | Failure(error: E)
}
