/** Optional values: JavaScript's `undefined`/`null` alternatives and a loop that has not yet finished. */
module Wrappers {

  datatype Option<T> = None | Some(value: T)
}
