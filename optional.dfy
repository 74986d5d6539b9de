/** The usual Some/None wrapper; None stands for an empty (null) table slot or an undefined step. */
module Optional {
  datatype Option<+T> = None | Some(value: T)
}
