/** Optional values, used for JavaScript's `undefined` and for parameters the host may omit. */
module Wrappers {
  datatype Option<+T> = None | Some(value: T)
}
