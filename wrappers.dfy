/** The nullable values of the game component: `null` becomes `None`. */
module Wrappers {

  datatype Option<+T> = None | Some(value: T)
}
