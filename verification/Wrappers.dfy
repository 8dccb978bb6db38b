/** Values that may be absent: Go's nil pointers, nil interfaces and missing map keys. */
module Wrappers {

  datatype Option<+T> = None | Some(value: T)
}
