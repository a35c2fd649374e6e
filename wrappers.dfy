/** Optional values and fallible results used across the model. */
module Wrappers {

  /** A value that may be absent (`undefined`, `null` or an empty form field in the source). */
  datatype Option<+T> = None | Some(value: T)

  /** The outcome of an operation that may fail (a rejected promise, a thrown exception). */
  datatype Result<+T> = Success(value: T) | Failure(error: string)
}
