/** Optional values: JavaScript's `null` / `undefined` for a state cell or a lookup. */
module Wrappers {
  datatype Option<+T> = None | Some(value: T)
}
