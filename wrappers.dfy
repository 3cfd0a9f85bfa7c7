/** Option and Result values shared by every module of the model. */
module Wrappers {
  datatype Option<T> = None | Some(value: T) {
    predicate IsSome() { Some? }
  }

  datatype Result<T, E> = Ok(value: T) | Err(error: E) {
    predicate IsOk() { Ok? }
  }

  /** The unit value, standing for Rust's `()`. */
  datatype Unit = Unit
}
