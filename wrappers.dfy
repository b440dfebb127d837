/** Nullable values and thrown exceptions, made explicit. */
module Wrappers {

  /** A Kotlin nullable `T?`. */
  datatype Option<+T> = None | Some(value: T)

  /** The outcome of a call that either returns a value or throws. */
  datatype Result<+T, +E> = Ok(value: T) | Err(error: E)
}
