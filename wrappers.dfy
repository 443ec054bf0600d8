/** Optional values: the model's stand-in for a dictionary lookup that may miss. */
module Wrappers {

  datatype Option<+T> = None | Some(value: T)
}
