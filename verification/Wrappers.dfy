/** Failure-aware result types shared by every component. */
module Wrappers {

  /** A possibly absent value; `None` is Go's nil. */
  datatype Option<+T> = None | Some(value: T)

  /** The outcome of a call that returns a value or an error. */
  datatype Result<+T, +E> = Ok(value: T) | Err(error: E)
}
