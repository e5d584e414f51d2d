/** The optional value the verifier uses wherever the original returns `None`. */
module Options {

  datatype Option<+T> = None | Some(value: T)
}
