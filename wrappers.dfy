/** The optional result of a smart constructor: `Some(v)` where the
    program returns the branded value, `None` where it returns `null`
    (or, for a form validator, `undefined`). */
module Wrappers {

  datatype Option<+T> = None | Some(value: T)

}
