/** Optional values: a JavaScript `undefined` / `null` result, or a value. */
module Wrappers {
  datatype Option<+T> = None | Some(value: T)
}
