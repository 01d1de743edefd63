/** Failure-carrying values shared by every module of the model. */
module Wrappers {

  /** A value that may be absent: Python's `None` or a present value. */
  datatype Option<+T> = None | Some(value: T)

  /** The outcome of an operation that either yields a value or raises. */
  datatype Result<+T> = Success(value: T) | Failure(error: string)

  /** The outcome of an operation that yields nothing or raises. */
  datatype Outcome = Pass | Fail(error: string)
}
