/** The optional value used for "no row found", "no audio produced" and "key absent". */
module Wrappers {
  datatype Option<+T> = None | Some(value: T)
}
