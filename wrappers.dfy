/** Failure-carrying result types shared by the task model. */
module Wrappers {

  /** An optional value: Python's `Optional[...]`, with `None` for an absent value. */
  datatype Option<+T> = None | Some(value: T)

  /** The outcome of an operation that produces a value or fails with an error. */
  datatype Result<+T, +E> = Ok(value: T) | Err(error: E)

  /** The outcome of an operation that produces nothing but may fail. */
  datatype Outcome<+E> = Pass | Fail(error: E)
}
