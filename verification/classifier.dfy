/** The line classifier: decides from one physical line which token it
    gives, the token's value and the line's indent. Checks run in a fixed
    order and the first that applies wins: blank line, comment, table row,
    keyword, and free text for everything else. */
module Classifier {
  import opened Strings
  import opened Tokens
  import opened LineSyntax

  datatype Option<T> = None | Some(value: T)

  /** A keyword that may open a line and the token type it gives. A
      header keyword carries its colon in `marker`; a step keyword must end
      the line or be followed by a space or by a colon, which is then
      dropped. */
  datatype Keyword = Keyword(marker: string, kind: TokenType, step: bool)

  /** The keyword table, consulted in this order. */
  const Keywords: seq<Keyword> := [
    Keyword("Feature:", Feature, false),
    Keyword("Background:", Background, false),
    Keyword("Scenario:", Scenario, false),
    Keyword("Given", Given, true),
    Keyword("When", When, true),
    Keyword("Then", Then, true)
  ]

  /** What follows keyword `k` and its separating colon when the trimmed
      line `content` opens with it. */
  function MatchKeyword(content: string, k: Keyword): Option<string> {
    if !StartsWith(content, k.marker) then None
    else if !k.step || |content| == |k.marker| || content[|k.marker|] == ' ' then Some(content[|k.marker|..])
    else if content[|k.marker|] == ':' then Some(content[|k.marker| + 1..])
    else None
  }

  /** The first keyword of `table` that `content` opens with, and what
      follows it. */
  function FindKeyword(content: string, table: seq<Keyword>): Option<(TokenType, string)> {
    if table == [] then None
    else match MatchKeyword(content, table[0])
      case Some(rest) => Some((table[0].kind, rest))
      case None => FindKeyword(content, table[1..])
  }

  /** The lookup finds nothing exactly when no row matches, and what it
      finds is the kind of a matching row and the text that row's match
      leaves: after its marker, and after a step keyword's colon when one
      follows. */
  lemma {:induction false} FindKeywordSpec(content: string, table: seq<Keyword>)
    ensures var r := FindKeyword(content, table);
      && (r.None? <==> forall j :: 0 <= j < |table| ==> MatchKeyword(content, table[j]).None?)
      && (r.Some? ==> exists j :: 0 <= j < |table| && MatchKeyword(content, table[j]) == Some(r.value.1)
                                  && table[j].kind == r.value.0)
  {
    if table != [] && MatchKeyword(content, table[0]).None? {
      FindKeywordSpec(content, table[1..]);
      assert forall j :: 1 <= j < |table| ==> table[j] == table[1..][j - 1];
      var r := FindKeyword(content, table);
      if r.Some? {
        var j :| 0 <= j < |table[1..]| && MatchKeyword(content, table[1..][j]) == Some(r.value.1)
                 && table[1..][j].kind == r.value.0;
        assert table[j + 1] == table[1..][j];
      }
    }
  }

  /** The token for physical line number `index` whose text is `line`. */
  function ClassifyLine(line: string, index: nat): Token {
    var indent := LeadingSpaces(line);
    var content := Trim(line);
    if content == [] then Token(NewLine, [], index, indent)
    else if content[0] == '#' then Token(Comment, Trim(content[1..]), index, indent)
    else if IsTableRow(content) then Token(TableRow, Trim(content[1..]), index, indent)
    else match FindKeyword(content, Keywords)
      case Some(o) => Token(o.0, Trim(o.1), index, indent)
      case None => Token(Text, content, index, indent)
  }
}
