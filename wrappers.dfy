/** Optional values and outcomes shared by every module of the model. */
module Wrappers {

  /** A value that may be absent: TypeScript's `T | undefined` or `T | null`. */
  datatype Option<+T> = None | Some(value: T)

  /** The outcome of an operation that may throw: the value, or what was thrown. */
  datatype Result<+T, +E> = Success(value: T) | Failure(error: E)
}
