/** The token kinds produced by the (external) scanner of 8-interpreter/lexer.h.
    Scanning itself is not part of this model: a token stream is a
    `seq<Token>`, and reading past its end yields `End`. */
module Lexer {

  datatype Token =
    | End                          // type 0: end of input
    | Char(c: char)                // types 1..255: one character such as '+', '(' or ';'
    | Identifier(name: string)     // IDENTIFIER
    | IntegerLiteral(value: int)   // INTEGER_LITERAL, `int_val` holds the value
    | KIntegerType                 // the keyword `int`
    | KDoubleType                  // the keyword `double`
    | KPrint                       // the keyword `print`
    | ErrorLexeme(bad: char)       // ERROR_LEXEME, `err_val` holds the offending character

  /** `lexer()` called for the token at position `i` of the stream. */
  function TokenAt(ts: seq<Token>, i: nat): Token {
    if i < |ts| then ts[i] else End
  }
}
