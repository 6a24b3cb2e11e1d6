/** Optional values: a file that could not be read, a key that is absent. */
module Wrappers {

  datatype Option<+T> = None | Some(value: T)
}
