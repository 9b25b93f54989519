/** The optional value used for the source's `None` returns and for library calls that may raise. */
module Wrappers {
  datatype Option<+T> = None | Some(value: T)
}
