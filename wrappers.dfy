/** Option and Result values used for missing rows and for the run's fatal errors. */
module Wrappers {

  /** A value that may be absent (Python's `None`). */
  datatype Option<+T> = None | Some(value: T)

  /** The outcome of a step that either yields a value or raises. */
  datatype Result<+T, +E> = Ok(value: T) | Err(error: E)
}
