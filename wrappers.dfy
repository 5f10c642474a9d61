/** Optional values and success-or-failure results shared by the whole model. */
module Wrappers {

  /** A value that may be absent: TypeScript's `T | null` or an optional property. */
  datatype Option<+T> = None | Some(value: T)

  /** The outcome of an operation that either yields a value or throws an error with a message. */
  datatype Result<+T> = Ok(value: T) | Err(message: string)
}
