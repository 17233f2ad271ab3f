/** Optional values: the explicit form of the HAL's NC ("not connected") sentinel. */
module Wrappers {

  datatype Option<+T> = None | Some(value: T)
}
