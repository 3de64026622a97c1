/** The optional value used for `activeEngine` (null in the source) and for lookups. */
module Wrappers {
  datatype Option<+T> = None | Some(value: T)
}
