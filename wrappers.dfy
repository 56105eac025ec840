/** Optional values: a JavaScript `null`, `undefined` or `NaN` where a value may be missing. */
module Wrappers {
  datatype Option<+T> = None | Some(value: T)
}
