/** Optional values, standing for Python's `None` and for documents a collection does not hold. */
module Wrappers {

  datatype Option<+T> = None | Some(value: T)
}
