/** Optional values: JavaScript's `undefined` / absent property, and the
    "no result" of `Array.prototype.find` or `localStorage.getItem`. */
module Wrappers {

  datatype Option<+T> = None | Some(value: T)
}
