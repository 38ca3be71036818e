/** Failure-compatible wrappers shared by the pipeline and the Tuya bridge. */
module Wrappers {

  /** A value that may be absent (JavaScript `null` / `undefined`). */
  datatype Option<+T> = None | Some(value: T)

  /** The outcome of an operation that either returns a value or throws an error message. */
  datatype Result<+T, +E> = Ok(value: T) | Err(error: E)
}
