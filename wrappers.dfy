/** Values that may be absent, and outcomes that may be a thrown error. */
module Wrappers {

  /** A value that may be absent: JavaScript's `null` / `undefined` is `None`. */
  datatype Option<+T> = None | Some(value: T)

  /** The outcome of an operation that either returns a value or throws an error. */
  datatype Result<+T, +E> = Success(value: T) | Failure(error: E)
}
