/** An optional value: stands for JavaScript's `undefined`/absent keys and for lookups that may miss. */
module Wrappers {

  datatype Option<+T> = None | Some(value: T)
}
