/** Optional values: `None` stands for `TextFileReader`'s `null`. */
module Wrappers {
  datatype Option<+T> = None | Some(value: T)
}
