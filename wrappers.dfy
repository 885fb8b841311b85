/** Optional values: a provider field or a whole fetch that may be absent. */
module Wrappers {

  datatype Option<+T> = None | Some(value: T)
}
