/** Optional values, standing for Python's `None` and for "no result" replies. */
module Wrappers {
  datatype Option<+T> = None | Some(value: T)
}
