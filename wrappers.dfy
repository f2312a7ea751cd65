/** The optional value used for vote counts that a district may not carry. */
module Wrappers {

  datatype Option<+T> = None | Some(value: T)
}
