/** An optional value: Go's nil-or-value results (a nil `error`) are `None`. */
module Wrappers {
  datatype Option<+T> = None | Some(value: T)
}
