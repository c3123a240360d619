/** Optional values: JavaScript's `null`/`undefined`/`NaN` outcomes, and a thrown exception. */
module Wrappers {

  datatype Option<+T> = None | Some(value: T)
}
