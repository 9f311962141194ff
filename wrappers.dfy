/** Optional values: `None` stands for a value pandas could not produce or a
    load that raised. */
module Wrappers {
  datatype Option<+T> = None | Some(value: T)
}
