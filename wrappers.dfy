/** Optional values: a catalog lookup that finds nothing, a prop that was not passed. */
module Wrappers {

  datatype Option<+T> = None | Some(value: T)
}
