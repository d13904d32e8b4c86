/** The optional value the application expresses with `undefined` or `null`. */
module Wrappers {

  datatype Option<+T> = None | Some(value: T)
}
