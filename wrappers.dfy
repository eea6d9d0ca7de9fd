/** Optional values, used where the source works with a pointer that may be null
    or a map lookup that may miss. */
module Wrappers {

  datatype Option<+T> = None | Some(value: T)
}
