/** The optional-value and outcome types used across the model. */
module Wrappers {

  /** A value that may be absent: JavaScript's `undefined` for an optional field or an unset variable. */
  datatype Option<+T> = None | Some(value: T)

  /** Either a parsed value or the list of reasons it was refused. */
  datatype Result<+R, +E> = Success(value: R) | Failure(error: E)
}
