/** Small failure-carrying datatypes shared by the other modules. */
module Wrappers {

  /** A value that may be absent (a JavaScript `null` / `undefined`). */
  datatype Option<+T> = None | Some(value: T)

  /** The outcome of an operation that may throw. */
  datatype Result<+T, +E> = Success(value: T) | Failure(error: E)
}
