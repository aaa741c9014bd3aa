/** Optional values: a JavaScript `null` / `NaN` / "not found" becomes `None`. */
module Wrappers {

  datatype Option<+T> = None | Some(value: T)
}
