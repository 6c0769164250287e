/** Optional values, used for nullable columns, absent JSON fields and "no row". */
module Wrappers {

  datatype Option<+T> = None | Some(value: T)
}
