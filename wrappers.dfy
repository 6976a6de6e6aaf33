/** Option, the model of Go's nil-able values (a nil interface, a nil slice, a nil map). */
module Wrappers {

  datatype Option<+T> = None | Some(value: T)
}
