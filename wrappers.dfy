/** Option, Result and Outcome: the shapes of Rust's `Option<T>`, `Result<T, E>` and `Result<(), E>`. */
module Wrappers {

  datatype Option<+T> = None | Some(value: T)

  datatype Result<+T, +E> = Success(value: T) | Failure(error: E)

  /** `Result<(), E>`: either nothing went wrong, or an error. */
  datatype Outcome<+E> = Pass | Fail(error: E)
}
