/** Optional values and results. */
module Wrappers {

  datatype Option<+T> = None | Some(value: T)
}
