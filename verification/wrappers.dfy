/** The optional value used for "a user or nobody" (`User | null` in the store). */
module Wrappers {

  datatype Option<+T> = None | Some(value: T)
}
