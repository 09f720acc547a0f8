/** The values the lexer hands to its consumer. */
module Tokens {

  /** The closed set of token types a consumer can see. */
  datatype TokenType =
    | Feature | Background | Scenario
    | Given | When | Then
    | Text | Comment | TableRow | NewLine
    | Eof

  /** One classified line: its type, its payload, the zero-based number of
      the physical line it came from and that line's leading-space count. */
  datatype Token = Token(kind: TokenType, value: string, line: nat, indent: nat)

  /** The token types that a keyword at the start of a line produces. */
  predicate IsKeywordKind(k: TokenType) {
    k.Feature? || k.Background? || k.Scenario? || k.Given? || k.When? || k.Then?
  }

  /** The terminal token, numbered with the count of lines read before it. */
  function EofToken(line: nat): Token {
    Token(Eof, [], line, 0)
  }
}
