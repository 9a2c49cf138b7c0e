/** The optional value used for the key-binding table's slots and for the
    action a key press fires. */
module Wrappers {

  datatype Option<+T> = None | Some(value: T)
}
