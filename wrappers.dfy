/** The optional value used for "a previous focus, if any" and for a nil pointer. */
module Wrappers {

  datatype Option<+T> = None | Some(value: T)
}
