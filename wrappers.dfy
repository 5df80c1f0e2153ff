/** Option and Result, standing for Java's null / Optional and for the
    exceptions the services throw. */
module Wrappers {

  datatype Option<+T> = None | Some(value: T)

  datatype Result<+T, +E> = Success(value: T) | Failure(error: E)

  /** The outcome of an operation that returns nothing on success (`void`). */
  datatype Outcome<+E> = Pass | Fail(error: E)
}
