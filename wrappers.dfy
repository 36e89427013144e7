/** Optional values, results, and the error JavaScript raises on reading a property of `null`. */
module Wrappers {

  /** An optional value: `None` stands for a JavaScript `undefined` (or a missing key). */
  datatype Option<+T> = None | Some(value: T)

  /** The outcome of an operation that may throw: the value, or what was thrown. */
  datatype Result<+R, +E> = Success(value: R) | Failure(error: E)

  /** The `TypeError` raised by reading property `property` of `null` or `undefined`. */
  datatype TypeError = ReadPropertyOfNullish(property: string)
}
