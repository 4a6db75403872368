/** Optional values: the model's reading of `null` / `undefined`. */
module Wrappers {

  datatype Option<+T> = None | Some(value: T)

}
