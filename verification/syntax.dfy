/** What each kind of line looks like, written independently of the
    classifier's keyword table, and how a token is written back as a line. */
module LineSyntax {
  import opened Strings
  import opened Tokens

  /** The text that opens a line of kind `k` once its indent is removed:
      the keyword (with its colon for headers), `#`, `|`, or nothing. */
  function Marker(k: TokenType): string {
    match k
    case Feature => "Feature:"
    case Background => "Background:"
    case Scenario => "Scenario:"
    case Given => "Given"
    case When => "When"
    case Then => "Then"
    case Comment => "#"
    case TableRow => "|"
    case Text => ""
    case NewLine => ""
    case Eof => ""
  }

  /** True when trimmed content starts and ends with a bar; a lone bar
      does both. */
  predicate IsTableRow(content: string) {
    content != [] && content[0] == '|' && content[|content| - 1] == '|'
  }

  /** The token types of the step keywords, which need no colon. */
  predicate IsStepKind(k: TokenType) {
    k.Given? || k.When? || k.Then?
  }

  /** True when trimmed `content` is a line opened by keyword kind `k`: a
      header keyword with its colon, or a step keyword standing alone or
      followed by a space or a colon. */
  predicate KeywordLine(content: string, k: TokenType) {
    match k
    case Feature | Background | Scenario => StartsWith(content, Marker(k))
    case Given | When | Then =>
      || content == Marker(k)
      || StartsWith(content, Marker(k) + " ")
      || StartsWith(content, Marker(k) + ":")
    case _ => false
  }

  /** The part of trimmed `content` that opens a line of kind `k` before
      its value: the kind's marker, and for a step keyword the colon that
      may follow it. */
  function Opening(content: string, k: TokenType): string {
    if IsStepKind(k) && StartsWith(content, Marker(k) + ":") then Marker(k) + ":" else Marker(k)
  }

  /** A token the classifier could have produced: a line token whose value
      carries no surrounding spaces and fits its kind. */
  predicate WellFormed(t: Token) {
    && t.kind != Eof
    && Trimmed(t.value)
    && (t.kind == NewLine ==> t.value == [])
    && (t.kind == TableRow ==> t.value == [] || t.value[|t.value| - 1] == '|')
    && (t.kind == Text ==>
          && t.value != []
          && t.value[0] != '#'
          && !IsTableRow(t.value)
          && forall k :: !KeywordLine(t.value, k))
  }

  /** The canonical line for token `t`: its indent, its marker, one space,
      and its value. */
  function Render(t: Token): string {
    match t.kind
    case NewLine => Spaces(t.indent)
    case Text => Spaces(t.indent) + t.value
    case _ => Spaces(t.indent) + Marker(t.kind) + " " + t.value
  }
}
