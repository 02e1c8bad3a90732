/** Optional values: a JavaScript variable that holds an object or `null`/`undefined`. */
module Wrappers {

  datatype Option<+T> = None | Some(value: T)
}
