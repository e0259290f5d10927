/** An optional value: a lookup that may find nothing, a setting that may be unset. */
module Options {

  datatype Option<+T> = None | Some(value: T)
}
