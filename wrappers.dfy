/** The optional value the demos use for pointers that may be null. */
module Wrappers {
  datatype Option<+T> = None | Some(value: T)
}
