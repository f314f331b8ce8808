/** The optional value shared by the models: an absent argument, an unset
    variable or a missing stored list. */
module Options {
  datatype Option<T> = None | Some(value: T)
}
