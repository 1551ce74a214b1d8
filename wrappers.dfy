/** Optional values: a key or reading that may be absent. */
module Wrappers {
  datatype Option<T> = None | Some(value: T)
}
