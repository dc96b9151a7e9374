/** The optional value used for DOM lookups that may find nothing and for
    steps that may throw. */
module Wrappers {

  datatype Option<+T> = None | Some(value: T)
}
