/** Success and failure values for the operations of the ledger. */
module Wrappers {

  datatype Option<+T> = None | Some(value: T)

  /** The outcome of an operation that returns a value or fails with an error. */
  datatype Result<+T, +E> = Ok(value: T) | Err(error: E)

  /** The outcome of a check or of an operation that returns nothing. */
  datatype Outcome<+E> = Pass | Fail(error: E)
}
