/** Found/absent results for every lookup against the store. */
module Wrappers {
  datatype Option<+T> = None | Some(value: T)
}
