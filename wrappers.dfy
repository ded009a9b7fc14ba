/** The optional value used for lookups that can miss and for request attributes that can be omitted. */
module Wrappers {

  datatype Option<+T> = None | Some(value: T)
}
