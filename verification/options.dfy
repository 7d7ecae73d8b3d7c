/** The optional value returned by the validated constructors and by iterator steps. */
module Options {
  datatype Option<+T> = None | Some(value: T)
}
