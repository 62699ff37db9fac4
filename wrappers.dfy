/** Optional values: an empty `std::function`, a null pointer, a missing scheduler. */
module Wrappers {

  datatype Option<+T> = None | Some(value: T)
}
