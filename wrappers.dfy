/** Optional values, used where the source has a nullable pointer or an analysis that may return nothing. */
module Wrappers {

  datatype Option<+T> = None | Some(value: T)
}
