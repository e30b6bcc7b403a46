/** Optional values: the model's stand-in for Go's nil pointers and for collaborators that may fail. */
module Wrappers {

  datatype Option<+T> = None | Some(value: T)
}
