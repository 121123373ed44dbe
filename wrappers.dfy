/** Optional values: the prompt box yields either nothing or a string. */
module Wrappers {
  datatype Option<+T> = None | Some(value: T)
}
