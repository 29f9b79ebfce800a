/** Optional values, shared by the endpoint and the page models. */
module Wrappers {

  datatype Option<+T> = None | Some(value: T)
}
