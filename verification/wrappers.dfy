/** Optional values: JavaScript's null and undefined are modelled as None. */
module Wrappers {
  datatype Option<+T> = None | Some(value: T)
}
