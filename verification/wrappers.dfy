/** The optional value used for results that a collaborator may fail to produce. */
module Wrappers {
  datatype Option<+T> = None | Some(value: T)
}
