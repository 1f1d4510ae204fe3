/** The optional value used wherever the handler may see a Java `null`. */
module Wrappers {
  datatype Option<+T> = None | Some(value: T)
}
