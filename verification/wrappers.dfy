/** The optional value used for JavaScript's `null`-or-value fields and lookups. */
module Wrappers {
  datatype Option<+T> = None | Some(value: T)
}
