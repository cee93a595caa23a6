/** The optional value used for fields that start out unset and for the
    outcome of a call that may raise. */
module Wrappers {
  datatype Option<+T> = None | Some(value: T)
}
