/** The optional value returned by a decoder that may fail. */
module Wrappers {

  datatype Option<+T> = None | Some(value: T)
}
