/** The optional value used wherever a C pointer may be NULL. */
module Wrappers {
  datatype Option<+T> = None | Some(value: T)
}
