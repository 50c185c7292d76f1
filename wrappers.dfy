/** Optional values: a JSON key that may be absent or null, a nullable column. */
module Wrappers {

  datatype Option<+T> = None | Some(value: T)

}
