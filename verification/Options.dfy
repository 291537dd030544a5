/** Optional values, for document fields the source may leave unset. */
module Options {
  datatype Option<+T> = None | Some(value: T)
}
