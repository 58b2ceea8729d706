/** The optional value used for absent protobuf sub-messages and for decode failures. */
module Wrappers {

  datatype Option<+T> = None | Some(value: T)

}
