/** Failure-carrying result types used by the ledger operations. */
module Wrappers {

  /** A value that may be absent, as `Array.prototype.find` or a rejected form submit returns. */
  datatype Option<+T> = None | Some(value: T)

  /** The outcome of a statement that either succeeds with a value or fails with an error. */
  datatype Result<+T, +E> = Success(value: T) | Failure(error: E)
}
