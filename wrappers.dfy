/** Optional values, for operations of the proxy target that can fail. */
module Wrappers {

  datatype Option<+T> = None | Some(value: T)
}
