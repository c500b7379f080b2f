/** Optional value, used for parses that may be rejected. */
module Wrappers {

  datatype Option<+T> = None | Some(value: T)
}
