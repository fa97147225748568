/** Optional values, standing for Python's `None` and for results that may be missing. */
module Wrappers {
  datatype Option<T> = None | Some(value: T)
}
