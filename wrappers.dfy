/** Optional values, used for the SDK's nullable results and for queries
    that may write nothing. */
module Wrappers {

  datatype Option<+T> = None | Some(value: T)
}
