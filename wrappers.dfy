/** The Option datatype: PHP's nullable values (`?string`, `?object`). */
module Wrappers {

  datatype Option<+T> = None | Some(value: T)

}
