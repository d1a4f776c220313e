/** Failure-carrying datatypes shared by the model. */
module Wrappers {

  datatype Option<+T> = None | Some(value: T)

  /** The status half of Rust's `Result<(), E>`: the call either passed or
      failed with an error value. */
  datatype Outcome<+E> = Pass | Fail(error: E)
}
