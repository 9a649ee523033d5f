/** Optional values, used for the partial registry-reference parse. */
module Wrappers {

  datatype Option<+T> = None | Some(value: T)
}
