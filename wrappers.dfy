/** Optional values, for outcomes that may be missing (an unreadable duration, an absent option). */
module Wrappers {
  datatype Option<+T> = None | Some(value: T)
}
