/** Optional values, used for lookups that can miss (a thread id, a file that cannot be opened). */
module Wrappers {
  datatype Option<+T> = None | Some(value: T)
}
