/** An optional value: `undefined`/`null` in the page code becomes None. */
module Wrappers {

  datatype Option<+T> = None | Some(value: T)
}
