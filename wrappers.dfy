/** Optional values for JavaScript's `null`/`undefined`. */
module Wrappers {

  /** A value that may be absent (`null` or `undefined` in the source). */
  datatype Option<+T> = None | Some(value: T)
}
