/** The optional value used wherever the source has `null` for "no result". */
module Wrappers {

  datatype Option<+T> = None | Some(value: T)
}
