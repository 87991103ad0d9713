/** The optional value used where the cleanup job returns `None`. */
module Wrappers {

  datatype Option<+T> = None | Some(value: T)
}
