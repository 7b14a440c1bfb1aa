/** Option, for the C idiom "a pointer that may be NULL" and "a lookup that may fail". */
module Wrappers {

  datatype Option<+T> = None | Some(value: T)
}
