/** Python's optional values: an argument that may be `None`. */
module Wrappers {

  datatype Option<+T> = None | Some(value: T)
}
