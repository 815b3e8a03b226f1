/** Optional values, used wherever the source raises and a caller catches. */
module Wrappers {
  datatype Option<+T> = None | Some(value: T)
}
