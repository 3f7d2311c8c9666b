/** A slot that may still be unset, as a JavaScript array entry that is `undefined`. */
module Wrappers {
  datatype Option<+T> = None | Some(value: T)
}
