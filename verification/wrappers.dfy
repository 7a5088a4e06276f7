/** The optional value used by the receiver's table and by the decoder's per-sample output. */
module Wrappers {

  datatype Option<+T> = None | Some(value: T)
}
