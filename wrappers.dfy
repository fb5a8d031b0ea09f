/** Failure-compatible wrappers shared by the other modules. */
module Wrappers {

  /** An optional value: Python's `None` or a present value. */
  datatype Option<T> = None | Some(value: T)

  /** A computation that either produced a value or raised. */
  datatype Result<T, E> = Ok(value: T) | Err(error: E)
}
