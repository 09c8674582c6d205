/** Optional values: a dictionary key that may be absent, or a field holding Python's None. */
module Wrappers {

  datatype Option<+T> = None | Some(value: T)
}
