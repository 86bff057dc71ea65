/** Optional values, standing in for the source's `undefined`/`null` checks. */
module Wrappers {
  datatype Option<+T> = None | Some(value: T)
}
