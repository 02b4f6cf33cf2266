/** Option and Result, the two sum types through which the system reports absence and failure. */
module Wrappers {

  /** An optional value, as the amount column of an input record. */
  datatype Option<+T> = None | Some(value: T)

  /** The outcome of an operation that can fail with an error of type E. */
  datatype Result<+T, +E> = Ok(value: T) | Err(error: E)
}
