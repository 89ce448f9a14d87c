/** Option, the stand-in for Rust's `Option<T>` used throughout the model. */
module Wrappers {
  datatype Option<+T> = None | Some(value: T)
}
