/** The optional value used for every field the component may receive as `undefined`. */
module Wrappers {

  datatype Option<+T> = None | Some(value: T)
}
