// Stock optional value, standing for a nullable column or a lookup that may miss.
module Wrappers {
  datatype Option<+T> = None | Some(value: T)
}
