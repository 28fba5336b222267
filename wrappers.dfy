/** The optional value used where the Go code has a value-or-nothing result. */
module Wrappers {

  datatype Option<+T> = None | Some(value: T)

}
