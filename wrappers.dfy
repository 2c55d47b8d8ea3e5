/** Optional values: `T | null | undefined` in the source. */
module Wrappers {

  datatype Option<+T> = None | Some(value: T)
}
