/** Optional values: a JavaScript property that may be `undefined`, a nullable reference. */
module Wrappers {

  datatype Option<+T> = None | Some(value: T)
}
