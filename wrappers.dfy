/** Optional values: JavaScript's `undefined` / `null` alternatives. */
module Wrappers {
  datatype Option<+T> = None | Some(value: T)
}
