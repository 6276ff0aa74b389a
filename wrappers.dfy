/** Optional values, for lookups that may find nothing and arguments that may be absent. */
module Wrappers {

  datatype Option<+T> = None | Some(value: T)

}
