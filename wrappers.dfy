/** The optional value used wherever the Go code passes a pointer that may be nil. */
module Wrappers {

  datatype Option<+T> = None | Some(value: T)
}
