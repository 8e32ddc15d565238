/** Optional values, standing for Python's `None` and for a conversion that can fail. */
module Wrappers {

  datatype Option<+T> = None | Some(value: T)
}
