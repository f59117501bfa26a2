/** The optional value used wherever the Go code returns a possibly-nil error or pointer. */
module Wrappers {

  datatype Option<+T> = None | Some(value: T)
}
