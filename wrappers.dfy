/** The optional value used for tables that may be absent and for partial parses. */
module Wrappers {
  datatype Option<+T> = None | Some(value: T)
}
