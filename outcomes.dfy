/** Optional and failing values shared by the modules of the model. */
module Outcomes {

  /** A value that may be absent: Python's `None` versus a present value. */
  datatype Option<+T> = None | Some(value: T)

  /** The outcome of a step that may raise: the value, or the condition raised. */
  datatype Result<+T, +E> = Ok(value: T) | Err(error: E)
}
