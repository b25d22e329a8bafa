/** Option and Result values: `undefined`/`null` fields and validation outcomes. */
module Wrappers {

  /** A value that may be absent (`undefined` or `null` in the source). */
  datatype Option<+T> = None | Some(value: T)

  /** The outcome of a validation: the accepted value, or what was wrong. */
  datatype Result<+R, +E> = Success(value: R) | Failure(error: E)
}
