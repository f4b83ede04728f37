/** Optional values: the `null` / `undefined` of the TypeScript source. */
module Wrappers {

  datatype Option<+T> = None | Some(value: T)
}
