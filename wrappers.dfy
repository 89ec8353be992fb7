/** The optional value used for a Go nil map and for a payload that does not read back. */
module Wrappers {
  datatype Option<+T> = None | Some(value: T)
}
