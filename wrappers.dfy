/** The optional value used for absent timestamps and for parse results. */
module Wrappers {

  datatype Option<+T> = None | Some(value: T)
}
