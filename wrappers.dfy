/** Option and Result datatypes used for absent values and for the step's error paths. */
module Wrappers {

  datatype Option<+T> = None | Some(value: T)

  /** Either the step's value or the error the step raises instead of returning. */
  datatype Result<+R, +E> = Success(value: R) | Failure(error: E)

  /** A check that either passes or fails with an error and carries no value. */
  datatype Outcome<+E> = Pass | Fail(error: E)
}
