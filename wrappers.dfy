/** Optional values: JavaScript's `null` next to a number. */
module Wrappers {
  datatype Option<+T> = None | Some(value: T)
}
