/** Rust's `Option<T>`: `None` or `Some(value)`. */
module Options {

  datatype Option<+T> = None | Some(value: T)

}
