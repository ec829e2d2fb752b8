/** The optional value used by lookups. */
module Wrappers {

  datatype Option<+T> = None | Some(value: T)
}
