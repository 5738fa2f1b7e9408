/** The optional value returned by a search that may find nothing. */
module Wrappers {
  datatype Option<+T> = None | Some(value: T)
}
