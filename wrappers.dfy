/** The optional value used for dictionary lookups that may miss and for a frame without a detected pose. */
module Wrappers {

  datatype Option<+T> = None | Some(value: T)

}
