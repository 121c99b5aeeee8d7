/** Optional values, used for "no slot" and "no occurrence" answers. */
module Wrappers {
  datatype Option<+T> = None | Some(value: T)
}
