/** The optional value used where the Go code uses a nil pointer or a
    "not present" result. */
module Wrappers {
  datatype Option<+T> = None | Some(value: T)
}
