/** The optional-value datatype shared by the other modules: a JavaScript value
    that may be `undefined`/`null` is an `Option`. */
module Wrappers {
  datatype Option<+T> = None | Some(value: T)
}
