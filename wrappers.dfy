/** The optional value used for receive results, slots and outputs (Python's `None`). */
module Wrappers {
  datatype Option<+T> = None | Some(value: T)
}
