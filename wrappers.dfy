/** Optional values: `None` stands for Python's `None` in a field, and for a
    computation that raised (nothing is assigned) in a function result. */
module Wrappers {

  datatype Option<+T> = None | Some(value: T)

}
