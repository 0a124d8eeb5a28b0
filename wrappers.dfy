/** Optional values, for the readings and fields that may be absent (`None`). */
module Wrappers {

  datatype Option<+T> = None | Some(value: T)
}
