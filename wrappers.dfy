/** Optional values: a Java reference that may be null. */
module Wrappers {

  datatype Option<+T> = None | Some(value: T)
}
