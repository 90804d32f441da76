/** Optional values: the positive-class probability is absent when the
    classifier cannot produce one. */
module Wrappers {

  datatype Option<+T> = None | Some(value: T)
}
