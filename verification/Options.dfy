/** Optional values, used where the C code returns NULL or -1 for "nothing". */
module Options {
  datatype Option<+T> = None | Some(value: T)
}
