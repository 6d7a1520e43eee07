/** Rust's `Option`, used for the current-track index and for results that may be absent. */
module Wrappers {
  datatype Option<+T> = None | Some(value: T)
}
