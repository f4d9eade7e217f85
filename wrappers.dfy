/** Option, the stand-in for the nullable values (`T | null`) of the page. */
module Wrappers {

  datatype Option<+T> = None | Some(value: T)
}
