/** Optional values, standing for JavaScript's `undefined` / missing fields. */
module Wrappers {
  datatype Option<+T> = None | Some(value: T)
}
