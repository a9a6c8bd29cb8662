/** The optional value used for query columns that may be unbound and for
    lookups that may find nothing (Java's null). */
module Wrappers {

  datatype Option<+T> = None | Some(value: T)
}
