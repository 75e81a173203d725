/** A value that may be absent: Go's nil, JavaScript's null. */
module Wrappers {
  datatype Option<+T> = None | Some(value: T)
}
