/** Optional values: PHP's nullable parameters (`?string`, `?int`, `?array`). */
module Wrappers {

  datatype Option<+T> = None | Some(value: T)
}
