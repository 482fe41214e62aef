/** Failure-compatible wrappers used throughout the model. */
module Wrappers {

  /** An optional value: `None` stands for JavaScript's `null` result of a
      failed lookup or match. */
  datatype Option<+T> = None | Some(value: T)

  /** The outcome of an operation that may throw: `Err` carries what was thrown. */
  datatype Result<+T, +E> = Ok(value: T) | Err(error: E)

  /** The outcome of a check that returns nothing on success. */
  datatype Outcome<+E> = Pass | Fail(error: E)
}
