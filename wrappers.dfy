/** Optional values: a parent that is not recorded, a trait that is not observed. */
module Wrappers {
  datatype Option<+T> = None | Some(value: T)
}
