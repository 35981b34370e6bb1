/** Failure-carrying values used across the model: Python's `None`,
    raised exceptions and normal returns become these. */
module Wrappers {

  datatype Option<+T> = None | Some(value: T)

  /** A computation that either returns a value or raises an error. */
  datatype Result<+T, +E> = Ok(value: T) | Err(error: E)

  /** A computation without a return value that either completes or raises. */
  datatype Outcome<+E> = Pass | Fail(error: E)
}
