/** Optional values: a panic of the source (an `unwrap` on nothing, a failed
    assertion) is modelled as `None`. */
module Wrappers {
  datatype Option<+T> = None | Some(value: T)
}
