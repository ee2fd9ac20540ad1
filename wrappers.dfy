/** Optional values, used for "no stage change" and for entry text that does not parse. */
module Wrappers {
  datatype Option<+T> = None | Some(value: T)
}
