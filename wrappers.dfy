/** Failure-carrying values used throughout the model. */
module Wrappers {

  datatype Option<+T> = None | Some(value: T)

  /** The outcome of an operation that either yields a value or fails with an
      error the caller reports. */
  datatype Result<+T, +E> = Ok(value: T) | Err(error: E)
}
