/** A nullable value: the model's stand-in for a column declared `null=True`. */
module Options {
  datatype Option<+T> = None | Some(value: T)
}
