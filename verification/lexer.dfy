/** The lexer: a cursor over the input that hands out one token per call,
    one per physical line and then EOF, which it keeps handing out. The
    cursor is written for any line classifier; the lexer proper uses
    `ClassifyLine`. */
module Lexer {
  import opened Tokens
  import opened LineReader
  import opened Classifier

  /** Turns a physical line and its zero-based number into a token. */
  type LineClassifier = (string, nat) -> Token

  /** The lexer's state: the input not read yet, the number of lines read
      so far, and whether EOF has been handed out. */
  datatype State = State(rest: string, line: nat, done: bool)

  /** A lexer at the start of `input`. */
  function New(input: string): State {
    State(input, 0, false)
  }

  /** One pull: the next token and the state after it. A line read from
      the input is handed to `f` with the count of lines read before it;
      once the input is used up the lexer enters its terminal state, which
      answers every later pull with the same EOF token without reading. */
  function Next(s: State, f: LineClassifier): (r: (State, Token))
    ensures r.0.done <==> s.done || s.rest == []
    ensures r.0.done ==> r == (State(s.rest, s.line, true), EofToken(s.line))
    ensures !r.0.done ==> r.0.line == s.line + 1 && |r.0.rest| < |s.rest|
    ensures !r.0.done ==> r.1 == f(ReadLine(s.rest).text, s.line) && r.0.rest == ReadLine(s.rest).rest
  {
    if s.done then (s, EofToken(s.line))
    else match ReadLine(s.rest)
      case Exhausted => (State(s.rest, s.line, true), EofToken(s.line))
      case Line(text, rest) => (State(rest, s.line + 1, false), f(text, s.line))
  }

  /** Every token pulled from `s` up to and including the first EOF. */
  function Drain(s: State, f: LineClassifier): (ts: seq<Token>)
    ensures ts != [] && ts[|ts| - 1].kind == Eof
    decreases |s.rest| + (if s.done then 0 else 1)
  {
    var r := Next(s, f);
    if r.0.done then [r.1] else [r.1] + Drain(r.0, f)
  }

  /** The token stream of `input`. */
  function Tokenize(input: string): seq<Token> {
    Drain(New(input), ClassifyLine)
  }

  /** The stream meant for `lines`, numbered from `first`: each line
      classified by `f` in order, then EOF. */
  function Stream(f: LineClassifier, lines: seq<string>, first: nat): seq<Token> {
    seq(|lines|, i requires 0 <= i < |lines| => f(lines[i], first + i))
      + [EofToken(first + |lines|)]
  }
}
