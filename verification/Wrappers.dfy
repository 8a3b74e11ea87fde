/** An optional value, as Python code passes it around with `None`. */
module Wrappers {
  datatype Option<+T> = None | Some(value: T)
}
