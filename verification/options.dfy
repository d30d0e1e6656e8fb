/** A value that may be absent: the model's stand-in for a C result that may be NULL. */
module Options {

  datatype Option<T> = None | Some(value: T)

}
