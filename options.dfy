/** The usual optional-value datatype, used for partial parsers and for
    Python's "method may or may not be overridden". */
module Options {
  datatype Option<+T> = None | Some(value: T)
}
