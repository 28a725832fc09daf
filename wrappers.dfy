/** Optional values, standing for the source's nullable fields and missing query data. */
module Wrappers {

  datatype Option<+T> = None | Some(value: T)
}
