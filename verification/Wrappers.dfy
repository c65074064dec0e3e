/** Values that may be absent: Go's nil pointers and missing names. */
module Wrappers {
  datatype Option<+T> = None | Some(value: T)
}
