/** Rust's `Option`, shared by the register models. */
module Wrappers {
  datatype Option<T> = None | Some(value: T)
}
