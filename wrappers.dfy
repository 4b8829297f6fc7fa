/** Optional values: how the model writes an `omitempty` JSON field or a nil pointer. */
module Wrappers {

  datatype Option<+T> = None | Some(value: T)
}
