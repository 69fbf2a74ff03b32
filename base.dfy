/** Option: the model's stand-in for Go's nil values and `error` returns. */
module Base {

  datatype Option<+T> = None | Some(value: T)
}
