/** Failure-carrying values used where the JavaScript code returns `undefined` or throws. */
module Wrappers {

  /** A lookup that may find nothing (`Array.prototype.find` returning `undefined`). */
  datatype Option<+T> = None | Some(value: T)

  /** The outcome of an operation that may throw. */
  datatype Result<+R, +E> = Success(value: R) | Failure(error: E)
}
