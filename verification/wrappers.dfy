/** The optional value used where the front end returns `null` or leaves a field unset. */
module Wrappers {
  datatype Option<+T> = None | Some(value: T)
}
