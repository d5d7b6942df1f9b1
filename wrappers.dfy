/** Option, Result and Outcome: absent values and the errors the writers throw. */
module Wrappers {

  datatype Option<+T> = None | Some(value: T)

  /** The value of an operation that either returns or throws. */
  datatype Result<+R> = Success(value: R) | Failure(error: string)

  /** An operation that returns nothing useful, or throws. */
  datatype Outcome = Pass | Fail(error: string)
}
