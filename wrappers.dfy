/** Optional values, used where the source returns or stores null. */
module Wrappers {
  datatype Option<+T> = None | Some(value: T)
}
