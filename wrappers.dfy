/** Failure-compatible wrappers shared by the renderers. */
module Wrappers {

  datatype Option<+T> = None | Some(value: T)

  /** The outcome of a computation that either produces a value or fails. */
  datatype Result<+T, +E> = Ok(value: T) | Err(error: E)

  /** The outcome of an action that produces nothing but may fail. */
  datatype Outcome<+E> = Pass | Fail(error: E)
}
