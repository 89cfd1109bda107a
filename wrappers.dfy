/** Optional values, for the source's `False`-or-value results. */
module Wrappers {
  datatype Option<T> = None | Some(value: T)
}
