/** The Option datatype used for values that may be missing (`null` or
    `undefined`) and for operations of the outside world that may throw. */
module Wrappers {
  datatype Option<+T> = None | Some(value: T)
}
