/** The optional value returned by a non-blocking queue read. */
module Wrappers {
  datatype Option<+T> = None | Some(value: T)
}
