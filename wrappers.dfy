/** Optional values, used for parse results and for the notifications a step may or may not emit. */
module Wrappers {
  datatype Option<+T> = None | Some(value: T)
}
