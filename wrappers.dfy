/** The optional value returned by Python's `dict.get`. */
module Wrappers {

  datatype Option<+T> = None | Some(value: T)

}
