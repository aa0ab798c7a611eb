/** Optional values: `None` stands for the Python exception a lookup or a `popleft` raises. */
module Wrappers {
  datatype Option<+T> = None | Some(value: T)
}
