/** Optional values: JavaScript's `null` selection and the `undefined` of a lookup that misses. */
module Wrappers {
  datatype Option<+T> = None | Some(value: T)
}
