/** Optional values: the model of a TypeScript `T | null`. */
module Wrappers {
  datatype Option<+T> = None | Some(value: T)
}
