/** An optional value, for Java references that may be `null`. */
module Wrappers {
  datatype Option<T> = None | Some(value: T)
}
