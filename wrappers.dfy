/** Optional values: a JSON key that may be missing, a fetch that may yield no data. */
module Wrappers {

  datatype Option<+T> = None | Some(value: T)
}
