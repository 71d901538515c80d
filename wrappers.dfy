/** A value that may be missing: a NaN cell, an absent key, an exception path. */
module Wrappers {
  datatype Option<T> = None | Some(value: T)
}
