/** The optional value used for absent port fields and for parses that fail. */
module Wrappers {

  datatype Option<+T> = None | Some(value: T)
}
