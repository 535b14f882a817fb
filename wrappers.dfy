/** Optional values: a form field, an uploaded file or a looked-up document that may be absent. */
module Wrappers {

  datatype Option<+T> = None | Some(value: T)

}
