/** Optional values and results with an error, shared by the other modules. */
module Wrappers {

  /** A value that may be absent (JavaScript's `null`). */
  datatype Option<+T> = None | Some(value: T)

  /** A computation that either yields a value or fails with an error (a thrown `Error`). */
  datatype Result<+T, +E> = Ok(value: T) | Err(error: E)
}
