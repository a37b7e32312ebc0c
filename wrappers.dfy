/** Optional values: the model of `T | null` and of optional fields. */
module Wrappers {
  datatype Option<+T> = None | Some(value: T)
}
