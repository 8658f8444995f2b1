/** Optional values: a JavaScript value that may be `null`/absent. */
module Wrappers {
  datatype Option<+T> = None | Some(value: T)
}
