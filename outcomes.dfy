/** Result types for the exceptions the core raises. */
module Outcomes {

  /** A value, or the error the operation raised instead. */
  datatype Result<+T, +E> = Ok(value: T) | Err(error: E)

  /** Completion of an operation that returns nothing, or the error it raised. */
  datatype Status<+E> = Pass | Fail(error: E)
}
