/** An optional value: a callback that was or was not provided, a date that may be absent. */
module Wrappers {
  datatype Option<+T> = None | Some(value: T)
}
