/** Optional values: JavaScript's `undefined`/`null`/falsy alternatives. */
module Wrappers {
  datatype Option<+T> = None | Some(value: T)
}
