/** The optional value a Go comma-ok map lookup produces. */
module Wrappers {
  datatype Option<+T> = None | Some(value: T)
}
