/** The usual optional-value datatype, used for attributes that may be absent. */
module Wrappers {
  datatype Option<+T> = None | Some(value: T)
}
