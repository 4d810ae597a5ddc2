/** The optional value used wherever the client works with a reference that may be null. */
module Wrappers {

  datatype Option<+T> = None | Some(value: T)
}
