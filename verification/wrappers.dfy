/** Optional values: an absent field, an unset storage key, a NaN result. */
module Wrappers {

  datatype Option<+T> = None | Some(value: T)
}
