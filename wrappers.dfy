/** The optional value used for SQL NULL-able columns and for Go's nil-able session values. */
module Wrappers {

  datatype Option<+T> = None | Some(value: T)

}
