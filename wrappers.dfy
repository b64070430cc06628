/** Failure-carrying results, used for the exceptions the planner can raise. */
module Wrappers {

  /** A value that may be absent: Python's `Optional[T]`, with `None` as the absent case. */
  datatype Option<+T> = None | Some(value: T)

  /** The outcome of a computation that either returns a value or raises an error. */
  datatype Result<+R, +E> = Ok(value: R) | Err(error: E)
}
