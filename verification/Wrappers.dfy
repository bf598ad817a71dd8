/** An optional value: a missing row, an absent field. */
module Wrappers {
  datatype Option<+T> = None | Some(value: T)
}
