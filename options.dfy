/** The optional-value datatype used for the parser's "match or no match" results. */
module Options {

  datatype Option<+T> = None | Some(value: T)

}
