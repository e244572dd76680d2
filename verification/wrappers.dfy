/** The optional value returned by the geometry helpers and by image decoding. */
module Wrappers {
  datatype Option<+T> = None | Some(value: T)
}
