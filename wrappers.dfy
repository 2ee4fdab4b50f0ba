/** An optional value, used where the source returns `undefined`, `-1` or nothing. */
module Wrappers {
  datatype Option<+T> = None | Some(value: T)
}
