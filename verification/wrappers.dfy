/** Small failure-carrying datatypes shared by every module of the model. */
module Wrappers {

  /** A value that may be missing: JavaScript's null / undefined is `None`. */
  datatype Option<+T> = None | Some(value: T)

  /** The settled state of an awaited call: it resolves with a value or throws an error. */
  datatype Result<+T, +E> = Success(value: T) | Failure(error: E)
}
