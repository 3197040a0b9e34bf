/** Option and Result, the two failure-carrying shapes the rest of the model uses. */
module Wrappers {

  /** Python's `Optional[X]`: `None` or a present value. */
  datatype Option<+T> = None | Some(value: T)

  /** The outcome of an operation that either returns a value or fails with an error. */
  datatype Result<+T, +E> = Ok(value: T) | Err(error: E)
}
