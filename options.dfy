/** An optional value: the nullable owner and timing name of a task. */
module Options {
  datatype Option<+T> = None | Some(value: T)
}
