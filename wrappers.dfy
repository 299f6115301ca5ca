/** The optional value used wherever the driver passes a nil slice or a nil pointer. */
module Wrappers {

  datatype Option<+T> = None | Some(value: T)

}
