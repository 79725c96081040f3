/** Failure-carrying datatypes used for the simulator's error paths. */
module Wrappers {

  datatype Option<+T> = None | Some(value: T)

  datatype Result<+T, +E> = Success(value: T) | Failure(error: E)

  /** A result that carries no value: the check either passed or failed with `error`. */
  datatype Outcome<+E> = Pass | Fail(error: E)
}
