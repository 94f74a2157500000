/** Optional values: a property that may be absent from an object, or a
    computation that may raise. */
module Wrappers {
  datatype Option<+T> = None | Some(value: T)
}
