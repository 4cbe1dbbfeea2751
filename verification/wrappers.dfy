/** The optional value used for "nothing scheduled" and "no card hit". */
module Wrappers {
  datatype Option<+T> = None | Some(value: T)
}
