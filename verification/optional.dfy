/** Optional values, standing for the source's use of `None`. */
module Optional {

  datatype Option<+T> = None | Some(value: T)
}
