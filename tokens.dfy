/** The lexer's output unit and its failure values. */
module Tokens {
  import opened Constants

  /** A token: its kind and the source text it was made from. */
  datatype Token = Token(kind: Kind, value: string)

  /**
   * Why a lexing pass stopped. `LexCrash` stands for the interpreter
   * error (a TypeError) that the `==` operator triggers.
   */
  datatype LexError =
    | IllegalChar(run: string)
    | UnterminatedString(delimiter: char)
    | UnmatchedDelimiter(delimiter: char)
    | UnterminatedComment
    | LexCrash
}
