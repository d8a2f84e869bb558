/**
 * 1.0/lib/token.go: the token record the scanner produces. The token type
 * constants are named after the Go identifiers (`LEFT_PAREN` becomes
 * `LeftParen`).
 */
module Tokens {
  /** One byte of a Go string; a source is indexed byte by byte. */
  type Byte = c: char | c as int < 256 witness '\0'

  datatype TokenType =
    | LeftParen | RightParen | LeftBrace | RightBrace
    | Comma | Dot | Minus | Plus | Semicolon | Slash | Star
    | Bang | BangEqual | Equal | EqualEqual
    | Greater | GreaterEqual | Less | LessEqual
    | Identifier | String | Number
    | And | Insert | Into | Values | Select | From | Where
    | Create | Table | Database | Or | Not
    | Eof

  /**
   * The `interface{}` literal: `nil`, the text of a string literal, or the
   * float that `strconv.ParseFloat` makes of a number lexeme, kept here as
   * the lexeme it is parsed from.
   */
  datatype Literal = Nil | Text(text: seq<Byte>) | Float(digits: seq<Byte>)

  datatype Token = Token(tokenType: TokenType, lexeme: seq<Byte>, literal: Literal, line: int)
}
