/** The optional-value datatype shared by the lexer, the AST and the generator helpers. */
module Options {

  datatype Option<+T> = None | Some(value: T)
}
