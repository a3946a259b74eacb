/** The optional-value and result datatypes shared by the watcher modules. */
module Wrappers {

  /** An optional value: Go's "zero value or nil" cases and fallible reads. */
  datatype Option<+T> = None | Some(value: T)

  /** A value or the error that prevented it, as Go's `(T, error)` pairs. */
  datatype Result<+R, +E> = Success(value: R) | Failure(error: E)
}
