/** Optional values: the model's stand-in for `null` / `undefined` in the source. */
module Options {

  datatype Option<+T> = None | Some(value: T)
}
