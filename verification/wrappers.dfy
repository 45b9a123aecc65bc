/** The three shapes in which the recorder's operations report an absent
    value or a failure. */
module Wrappers {

  /** A value that may be missing, as Rust's `Option<T>`. */
  datatype Option<+T> = None | Some(value: T)

  /** A value or the error that prevented it, as Rust's `Result<R, E>`. */
  datatype Result<+R, +E> = Ok(value: R) | Err(error: E)

  /** Success with no payload or an error, as Rust's `Result<(), E>`. */
  datatype Outcome<+E> = Pass | Fail(error: E)
}
