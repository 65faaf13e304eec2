/** The optional value used where the loader may find nothing. */
module Wrappers {

  datatype Option<+T> = None | Some(value: T)
}
