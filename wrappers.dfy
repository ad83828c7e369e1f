/** Failure-carrying result types used where the C++ source throws. */
module Wrappers {

  datatype Option<T> = None | Some(value: T)

  /** A value, or the message of the exception the source would throw. */
  datatype Result<T> = Ok(value: T) | Err(error: string)

  /** Success of an operation that returns nothing, or the thrown message. */
  datatype Outcome = Pass | Fail(error: string)
}
