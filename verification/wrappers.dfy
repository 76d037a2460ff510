/** Optional values: the model's stand-in for "nothing was sent". */
module Wrappers {

  datatype Option<+T> = None | Some(value: T)
}
