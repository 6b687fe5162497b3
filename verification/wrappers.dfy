/** Rust's `Option<T>`, used for optional fields, senders and lookups. */
module Wrappers {
  datatype Option<T> = None | Some(value: T)
}
