/** Optional and fallible values, as used throughout the model. */
module Wrappers {

  /** A value that may be absent (a TypeScript `T | undefined`). */
  datatype Option<+T> = None | Some(value: T)

  /** The outcome of a step that either yields a value or throws. */
  datatype Result<+T, +E> = Ok(value: T) | Err(error: E)
}
