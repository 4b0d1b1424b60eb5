/** Optional values: `None` stands for JavaScript's `undefined`/`null` results and thrown reads. */
module Wrappers {
  datatype Option<+T> = None | Some(value: T)
}
