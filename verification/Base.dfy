/** Types shared by the models. */
module Base {
  /** An optional value: Go's nil, missing map entries and comma-ok results. */
  datatype Option<+T> = None | Some(value: T)
}
