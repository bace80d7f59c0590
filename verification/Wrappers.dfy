/** Optional values: Go's nil-able results and fields. */
module Wrappers {
  datatype Option<+T> = None | Some(value: T)
}
