/** Failure-carrying values used across the model in place of Ruby's nil and raised exceptions. */
module Wrappers {

  /** A value that may be absent (Ruby's nil). */
  datatype Option<T> = None | Some(value: T)

  /** The outcome of a computation that either yields a value or fails with an error. */
  datatype Result<T, E> = Success(value: T) | Failure(error: E)

  /** The outcome of a command run for its effect: it passes or fails with an error. */
  datatype Outcome<E> = Pass | Fail(error: E)
}
