/** The optional value used for partial parses (`parseFloat`, `parseInt`
    that may yield NaN) and for record keys that may be absent. */
module Wrappers {

  datatype Option<+T> = None | Some(value: T)
}
