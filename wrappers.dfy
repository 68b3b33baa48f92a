/** Optional values: a C pointer that may be NULL, a struct that may be all zero. */
module Wrappers {

  datatype Option<+T> = None | Some(value: T)
}
