/** An optional value, standing for the source's nullable references (a gear slot, a modifier slot). */
module Wrappers {

  datatype Option<+T> = None | Some(value: T)

}
