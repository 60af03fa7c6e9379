/** Optional values: Python's `T | None`. */
module Wrappers {
  datatype Option<+T> = None | Some(value: T)
}
