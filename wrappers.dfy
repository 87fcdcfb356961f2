/** Optional values, used where the model reports "not found". */
module Wrappers {
  datatype Option<+T> = None | Some(value: T)
}
