/** The optional value used for a completion reply and for the outcome of a generation run. */
module Wrappers {
  datatype Option<+T> = None | Some(value: T)
}
