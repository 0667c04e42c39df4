/** The optional value and the success-or-error value used throughout the model. */
module Wrappers {

  datatype Option<+T> = None | Some(value: T)

  /** Rust's `Result<R, E>`: an `Ok` value or an `Err` value. */
  datatype Result<+R, +E> = Ok(value: R) | Err(error: E)
}
