/** Optional values: a form field that was left empty is `None`. */
module Wrappers {

  datatype Option<+T> = None | Some(value: T)
}
