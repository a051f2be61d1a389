/** The optional value used for reads that may revert and for entities that may be absent. */
module Wrappers {

  datatype Option<+T> = None | Some(value: T)
}
