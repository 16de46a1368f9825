/** Optional values: a JavaScript `null` or a missing stored entry is `None`. */
module Wrappers {
  datatype Option<+T> = None | Some(value: T)
}
