/** Optional values: the model's stand-in for `undefined`, `NaN` and `find` misses. */
module Wrappers {
  datatype Option<+T> = None | Some(value: T)
}
