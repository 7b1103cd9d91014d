/** Absence and failure values shared by the content script and the background worker. */
module Wrappers {

  /** A value that may be missing (JavaScript's `null` / `undefined`). */
  datatype Option<+T> = None | Some(value: T)

  /** The outcome of an operation that either returns a value or throws. */
  datatype Result<+R, +E> = Ok(value: R) | Err(error: E)
}
