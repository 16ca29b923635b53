/** Failure-carrying return values shared by the request handlers. */
module Wrappers {

  /** A value that may be absent: a missing ledger row, a `tx_hash` of None. */
  datatype Option<+T> = None | Some(value: T)

  /** The outcome of a handler: a value, or the error it raises instead. */
  datatype Result<+R, +E> = Success(value: R) | Failure(error: E)
}
