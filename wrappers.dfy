/** Plain value wrappers standing in for Solace's `Optional` and `Result`. */
module Wrappers {

  /** Solace `Optional<T>`: a value or `none`. */
  datatype Optional<+T> = None | Some(value: T)

  /** Solace `Result<T, E>`: `Ok(value)` or an error. `Result<(), E>` is `Result<void, E>`. */
  datatype Result<+T, +E> = Ok(value: T) | Err(error: E)
}
