/** An optional field or value: `undefined` and `null` in the source become `None`. */
module Wrappers {
  datatype Option<+T> = None | Some(value: T)
}
