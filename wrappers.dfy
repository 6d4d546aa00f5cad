/** The optional value used wherever Go returns a nillable `error` or a second result. */
module Wrappers {

  datatype Option<+T> = None | Some(value: T)
}
