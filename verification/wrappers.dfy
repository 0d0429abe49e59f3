/** Failure-carrying datatypes used in place of Python's None returns and raised exceptions. */
module Wrappers {

  /** A value that may be absent: Python's `Optional[...]`. */
  datatype Option<+T> = None | Some(value: T)

  /** A computation that yields a value or an error. */
  datatype Result<+T, +E> = Ok(value: T) | Err(error: E)

  /** A check that either passes or fails with an error, carrying no value. */
  datatype Outcome<+E> = Pass | Fail(error: E)
}
