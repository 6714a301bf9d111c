/** The optional-value datatype used for Rust's `Option` and for the
    outcome of parsing a format string. */
module Wrappers {

  datatype Option<+T> = None | Some(value: T)
}
