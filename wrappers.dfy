/** Optional values: Go's `error`, which is either nil or a message, and
    the regular-expression matcher's "no match". */
module Wrappers {

  datatype Option<+T> = None | Some(value: T)
}
