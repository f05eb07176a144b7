/** The Option datatype used for values that may be absent (a JavaScript
    `undefined`, a decode that fails). */
module Wrappers {

  datatype Option<+T> = None | Some(value: T)
}
