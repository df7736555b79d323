/** The optional value used for the source's nullable and omitted fields. */
module Wrappers {

  datatype Option<+T> = None | Some(value: T)
}
