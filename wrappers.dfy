/** Optional values, used for the source's `None` / `undefined` / `null`. */
module Wrappers {

  datatype Option<+T> = None | Some(value: T)
}
