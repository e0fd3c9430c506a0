/** The optional value a handler either emits or withholds. */
module Wrappers {

  datatype Option<+T> = None | Some(value: T)
}
