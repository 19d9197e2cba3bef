/** Optional values: the source's `null`/`undefined` and its optional error codes. */
module Wrappers {

  datatype Option<+T> = None | Some(value: T)
}
