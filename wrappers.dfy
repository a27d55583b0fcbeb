/** Optional values: a fetch that failed, a null close, a missing key. */
module Wrappers {

  datatype Option<+T> = None | Some(value: T)
}
