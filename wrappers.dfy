/** Optional values: a JavaScript `undefined`/`null` or an absent result. */
module Wrappers {
  datatype Option<+T> = None | Some(value: T)
}
