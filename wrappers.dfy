/** The nullable references of the scripts (an element that a lookup may not find,
    an attribute name that a mutation record may not carry) as an explicit option. */
module Wrappers {

  datatype Option<+T> = None | Some(value: T)

}
