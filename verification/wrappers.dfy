/** The optional value used for absent environment variables, absent
    headers and the absent worker handle (JavaScript's `undefined`/`null`). */
module Wrappers {

  datatype Option<+T> = None | Some(value: T)
}
