/** Optional values: the model's stand-in for `undefined` results and optional fields. */
module Wrappers {

  datatype Option<+T> = None | Some(value: T)

}
