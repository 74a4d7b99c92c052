/** The optional value used for abstract partial decoders (header parsing). */
module Wrappers {

  datatype Option<+T> = None | Some(value: T)

}
