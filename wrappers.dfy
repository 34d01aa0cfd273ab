/** The optional value used for lookups that may miss and for an optional next node. */
module Wrappers {

  datatype Option<+T> = None | Some(value: T)
}
