/** Optional values: a profile field that may be missing (NULL in the database). */
module Wrappers {

  datatype Option<+T> = None | Some(value: T)
}
