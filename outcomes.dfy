/** Option and Result values, standing for Python's `None` and for the
    `ValueError`s raised by the analysis classes. */
module Outcomes {

  datatype Option<+T> = None | Some(value: T)

  datatype Result<+T, +E> = Ok(value: T) | Err(error: E)

  /** The result of an operation that returns nothing on success. */
  datatype Outcome<+E> = Pass | Fail(error: E)
}
