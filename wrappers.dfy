/** Optional values: a dictionary lookup that may miss, an exception that may be raised. */
module Wrappers {
  datatype Option<+T> = None | Some(value: T)
}
