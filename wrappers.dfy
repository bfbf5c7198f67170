/** Optional values: an unset form field, a failed parse. */
module Wrappers {

  datatype Option<+T> = None | Some(value: T)
}
