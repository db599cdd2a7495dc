/** A value that may be missing: a nullable column, an absent row, a lookup that finds nothing. */
module Wrappers {
  datatype Option<+T> = None | Some(value: T)
}
