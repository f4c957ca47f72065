/** Optional values: JavaScript's `null`/`undefined`/`NaN` results of the
    modelled code become `None`. */
module Wrappers {

  datatype Option<+T> = None | Some(value: T)
}
