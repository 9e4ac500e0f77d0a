/** Optional values: JavaScript's `null` (or an absent property) versus a present value. */
module Wrappers {

  datatype Option<+T> = None | Some(value: T)
}
