/** Optional values: `None` stands for a JavaScript `undefined` (or absent) value. */
module Wrappers {

  datatype Option<+T> = None | Some(value: T)
}
