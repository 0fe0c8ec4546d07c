/** Option, for values that may be absent (a JavaScript `null` / `undefined`). */
module Wrappers {

  datatype Option<+T> = None | Some(value: T)

}
