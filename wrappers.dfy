/** Optional values, used for a check's severity and for parses that can fail. */
module Wrappers {

  datatype Option<+T> = None | Some(value: T)
}
