/** Optional values: JavaScript's `null`/`undefined` for a record that may be absent. */
module Wrappers {

  datatype Option<+T> = None | Some(value: T)
}
