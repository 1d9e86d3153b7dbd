/** The optional value returned by lookups and by the undo operation. */
module Wrappers {

  datatype Option<+T> = None | Some(value: T)
}
