/** An optional value, for the places where the source has `null`, `undefined` or a miss. */
module Wrappers {
  datatype Option<+T> = None | Some(value: T)
}
