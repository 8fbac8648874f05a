/** The optional value a JavaScript property read may yield. */
module Wrappers {

  datatype Option<+T> = None | Some(value: T)
}
