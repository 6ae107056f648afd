/** The optional value used when a string has to be read back as one of the
    closed enumerations. */
module Wrappers {

  datatype Option<+T> = None | Some(value: T)
}
