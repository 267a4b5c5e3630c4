/** The optional value the controller uses for "no record being edited" and "no request issued". */
module Wrappers {

  datatype Option<+T> = None | Some(value: T)
}
