/** The optional value used by the game's operations that may or may not produce a result. */
module Wrappers {

  datatype Option<T> = None | Some(value: T)
}
