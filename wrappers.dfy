/** The optional value a JavaScript function returns when it may return `undefined`. */
module Wrappers {
  datatype Option<+T> = None | Some(value: T)
}
