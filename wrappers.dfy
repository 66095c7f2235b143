/** Optional values: the model's counterpart of the source's `null` results. */
module Wrappers {
  datatype Option<+T> = None | Some(value: T)
}
