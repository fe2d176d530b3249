/** The optional value used where the source returns or accepts None. */
module Wrappers {
  datatype Option<+T> = None | Some(value: T)
}
