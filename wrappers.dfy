/** The optional value used for nullable batch slots and for lookups that can fail. */
module Wrappers {

  datatype Option<+T> = None | Some(value: T)

}
