/** The usual optional-value datatype, for absent request parts and failed parses. */
module Wrappers {
  datatype Option<+T> = None | Some(value: T)
}
