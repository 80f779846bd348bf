/** Optional values, for lookups that may find nothing and operations that may have no result. */
module Options {
  datatype Option<+T> = None | Some(value: T)
}
