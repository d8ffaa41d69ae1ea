/** The optional value used wherever Go returns a value or nothing (nil, a
    missing map key, a failed parse). */
module Wrappers {

  datatype Option<+T> = None | Some(value: T)
}
