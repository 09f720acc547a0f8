/** What the classifier guarantees about every line: the token type is the
    one the line's shape names, the value is the line's content after its
    marker, the indent is the line's own, and writing a token back as a
    line and classifying it again gives the same token. */
module ClassifierFacts {
  import opened Strings
  import opened Tokens
  import opened LineSyntax
  import opened Classifier

  /** Each row of the keyword table matches exactly the lines whose shape
      names its kind, and leaves what follows the marker. */
  lemma TableAgrees(c: string, j: nat)
    requires j < |Keywords|
    ensures IsKeywordKind(Keywords[j].kind)
    ensures Keywords[j].marker == Marker(Keywords[j].kind)
    ensures MatchKeyword(c, Keywords[j]).Some? <==> KeywordLine(c, Keywords[j].kind)
    ensures MatchKeyword(c, Keywords[j]).Some? ==>
              MatchKeyword(c, Keywords[j]).value == c[|Opening(c, Keywords[j].kind)|..]
  {
  }

  /** Every keyword kind has a row in the table. */
  lemma TableCovers(k: TokenType)
    requires IsKeywordKind(k)
    ensures exists j :: 0 <= j < |Keywords| && Keywords[j].kind == k
  {
    var j := if k.Feature? then 0 else if k.Background? then 1 else if k.Scenario? then 2
             else if k.Given? then 3 else if k.When? then 4 else 5;
    assert Keywords[j].kind == k;
  }

  /** A keyword line opens with the keyword's first letter, so it is not
      blank, not a comment and not a table row. */
  lemma KeywordLineOpening(c: string, k: TokenType)
    requires KeywordLine(c, k)
    ensures IsKeywordKind(k)
    ensures c != [] && c[0] == Marker(k)[0]
    ensures c[0] != '#' && c[0] != '|'
  {
    assert c[..|Marker(k)|] == Marker(k);
  }

  /** No line opens with two different keywords, so the order of the table
      does not matter. */
  lemma KeywordsExclusive(c: string, k1: TokenType, k2: TokenType)
    requires KeywordLine(c, k1) && KeywordLine(c, k2)
    ensures k1 == k2
  {
    KeywordLineOpening(c, k1);
    KeywordLineOpening(c, k2);
  }

  /** Looking a line up in the table finds the keyword its shape names, or
      nothing when no keyword opens it. */
  lemma FindKeywordAgrees(c: string)
    ensures FindKeyword(c, Keywords).None? <==> forall k :: !KeywordLine(c, k)
    ensures FindKeyword(c, Keywords).Some? ==>
              var o := FindKeyword(c, Keywords).value;
              KeywordLine(c, o.0) && o.1 == c[|Opening(c, o.0)|..]
  {
    var r := FindKeyword(c, Keywords);
    FindKeywordSpec(c, Keywords);
    if r.Some? {
      var j :| 0 <= j < |Keywords| && MatchKeyword(c, Keywords[j]) == Some(r.value.1)
               && Keywords[j].kind == r.value.0;
      TableAgrees(c, j);
    } else {
      forall k | KeywordLine(c, k) ensures false {
        KeywordLineOpening(c, k);
        TableCovers(k);
        var j :| 0 <= j < |Keywords| && Keywords[j].kind == k;
        TableAgrees(c, j);
      }
    }
  }

  /** Every line's token carries the line's number and its own
      leading-space count, is never EOF, and is an empty NEW_LINE exactly
      when the line holds nothing but spaces. */
  lemma ClassifyBasics(line: string, index: nat)
    ensures var t := ClassifyLine(line, index);
      && t.line == index
      && t.indent == LeadingSpaces(line)
      && t.kind != Eof
      && (t.kind == NewLine <==> AllSpaces(line))
      && (t.kind == NewLine ==> t.value == [])
  {
    TrimEmpty(line);
    KeywordsHaveKeywordKinds();
    FindKeywordKind(Trim(line), Keywords);
  }

  /** Every row of the keyword table gives a keyword kind. */
  lemma KeywordsHaveKeywordKinds()
    ensures forall j :: 0 <= j < |Keywords| ==> IsKeywordKind(Keywords[j].kind)
  {
  }

  /** A lookup in a table of keyword kinds finds a keyword kind. */
  lemma {:induction false} FindKeywordKind(c: string, table: seq<Keyword>)
    requires forall j :: 0 <= j < |table| ==> IsKeywordKind(table[j].kind)
    ensures FindKeyword(c, table).Some? ==> IsKeywordKind(FindKeyword(c, table).value.0)
  {
    if table != [] && MatchKeyword(c, table[0]).None? {
      assert forall j :: 0 <= j < |table[1..]| ==> table[1..][j] == table[j + 1];
      FindKeywordKind(c, table[1..]);
    }
  }

  /** The token type of a line is the one its shape names: blank lines
      give NEW_LINE, `#` lines COMMENT, bar-delimited lines TABLE_ROW,
      keyword lines their keyword's type, and every other line TEXT. The
      token carries the line's number and its own leading-space count. */
  lemma ClassifyKinds(line: string, index: nat)
    ensures var t := ClassifyLine(line, index); var c := Trim(line);
      && t.line == index
      && t.indent == LeadingSpaces(line)
      && t.kind != Eof
      && (t.kind == NewLine <==> AllSpaces(line))
      && (t.kind == Comment <==> c != [] && c[0] == '#')
      && (t.kind == TableRow <==> IsTableRow(c))
      && (forall k :: KeywordLine(c, k) <==> t.kind == k && IsKeywordKind(k))
      && (t.kind == Text <==> c != [] && c[0] != '#' && !IsTableRow(c) && forall k :: !KeywordLine(c, k))
  {
    var t := ClassifyLine(line, index);
    var c := Trim(line);
    TrimEmpty(line);
    FindKeywordAgrees(c);
    forall k | KeywordLine(c, k) ensures t.kind == k {
      KeywordLineOpening(c, k);
      var kind := FindKeyword(c, Keywords).value.0;
      KeywordsExclusive(c, k, kind);
    }
    if IsKeywordKind(t.kind) {
      assert KeywordLine(c, t.kind);
    }
  }

  /** The value of a line's token is what follows the kind's opening (its
      marker, and a step keyword's colon) in the line's trimmed content,
      after the spaces that separate them. */
  lemma ClassifyValue(line: string, index: nat)
    ensures var t := ClassifyLine(line, index);
      exists k: nat :: Trim(line) == Opening(Trim(line), t.kind) + Spaces(k) + t.value
  {
    var k := ValueOffset(line, index);
  }

  /** The number of spaces between marker and value in `ClassifyValue`. */
  lemma ValueOffset(line: string, index: nat) returns (k: nat)
    ensures var t := ClassifyLine(line, index);
      Trim(line) == Opening(Trim(line), t.kind) + Spaces(k) + t.value
  {
    var c := Trim(line);
    if c != [] && (c[0] == '#' || IsTableRow(c)) {
      k := MarkedLineValue(line, index);
    } else if c != [] && FindKeyword(c, Keywords).Some? {
      k := KeywordLineValue(line, index);
    } else {
      k := 0;
    }
  }

  /** `ValueOffset` for a comment or table row. */
  lemma MarkedLineValue(line: string, index: nat) returns (k: nat)
    requires Trim(line) != [] && (Trim(line)[0] == '#' || IsTableRow(Trim(line)))
    ensures var t := ClassifyLine(line, index);
      Trim(line) == Opening(Trim(line), t.kind) + Spaces(k) + t.value
  {
    var c := Trim(line);
    var t := ClassifyLine(line, index);
    ClassifyMarked(line, index);
    var m := if c[0] == '#' then "#" else "|";
    assert m == Marker(t.kind) == Opening(c, t.kind) && t.value == Trim(c[1..]);
    assert c == m + c[1..];
    k := MarkedValue(c, m, c[1..]);
  }

  /** `ValueOffset` for a keyword line. */
  lemma KeywordLineValue(line: string, index: nat) returns (k: nat)
    requires Trim(line) != [] && Trim(line)[0] != '#' && !IsTableRow(Trim(line))
    requires FindKeyword(Trim(line), Keywords).Some?
    ensures var t := ClassifyLine(line, index);
      Trim(line) == Opening(Trim(line), t.kind) + Spaces(k) + t.value
  {
    var c := Trim(line);
    var r := FindKeyword(c, Keywords);
    FindKeywordAgrees(c);
    k := KeywordValue(c, r.value.0, r.value.1);
  }

  /** `ValueOffset` for a line that opens with keyword kind `kind`. */
  lemma KeywordValue(c: string, kind: TokenType, rest: string) returns (k: nat)
    requires Trimmed(c) && KeywordLine(c, kind) && rest == c[|Opening(c, kind)|..]
    ensures c == Opening(c, kind) + Spaces(k) + Trim(rest)
  {
    var m := Opening(c, kind);
    assert StartsWith(c, m);
    assert c == m + rest;
    k := MarkedValue(c, m, rest);
  }

  /** A trimmed line opened by marker `m` is `m`, some spaces, and the
      trimmed remainder; returns the number of those spaces. */
  lemma MarkedValue(c: string, m: string, rest: string) returns (k: nat)
    requires c == m + rest && m != [] && Trimmed(c)
    ensures c == m + Spaces(k) + Trim(rest)
  {
    TrimmedTail(m, rest);
    k := LeadingSpaces(rest);
  }

  /** Every line gives a well-formed token. */
  lemma ClassifyWellFormed(line: string, index: nat)
    ensures WellFormed(ClassifyLine(line, index))
  {
    var t := ClassifyLine(line, index);
    var c := Trim(line);
    ClassifyBasics(line, index);
    KeywordsHaveKeywordKinds();
    FindKeywordKind(c, Keywords);
    if t.kind == TableRow {
      RowValue(c);
    } else if t.kind == Text {
      ClassifyKinds(line, index);
      assert t.value == c;
    }
  }

  /** What follows the opening bar of a table row trims to nothing (a
      lone bar) or to a value that still ends with the closing bar. */
  lemma RowValue(c: string)
    requires Trimmed(c) && IsTableRow(c)
    ensures Trim(c[1..]) == [] || Trim(c[1..])[|Trim(c[1..])| - 1] == '|'
  {
    var rest := c[1..];
    if rest != [] {
      assert c == c[..1] + rest;
      TrimmedTail(c[..1], rest);
      assert rest[|rest| - 1] == '|';
      TrimEmpty(rest);
      assert rest[|rest| - 1] == Trim(rest)[|Trim(rest)| - 1];
    }
  }

  /** A well-formed token, written back as a line and classified again,
      gives that same token: the classifier reads back what `Render`
      writes. */
  lemma ClassifyRender(t: Token)
    requires WellFormed(t)
    ensures ClassifyLine(Render(t), t.line) == t
  {
    var line := Render(t);
    RenderSplits(t);
    var c := Trim(line);
    if t.kind == NewLine || t.kind == Text {
      if t.kind == Text {
        FindKeywordAgrees(c);
      }
    } else if t.kind == Comment || t.kind == TableRow {
      MarkedRoundTrip(t);
    } else {
      KeywordRoundTrip(t);
    }
  }

  /** The content `Render` puts after the indent. */
  function RenderedContent(t: Token): string {
    match t.kind
    case NewLine => []
    case Text => t.value
    case _ => if t.value == [] then Marker(t.kind) else Marker(t.kind) + " " + t.value
  }

  /** A rendered line has the token's indent and its rendered content. */
  lemma RenderSplits(t: Token)
    requires WellFormed(t)
    ensures LeadingSpaces(Render(t)) == t.indent
    ensures Trim(Render(t)) == RenderedContent(t)
  {
    var c := RenderedContent(t);
    if t.kind == NewLine {
      assert Render(t) == Spaces(t.indent) + c + Spaces(0);
      PaddedSplit(t.indent, c, 0);
    } else if t.kind == Text {
      assert Render(t) == Spaces(t.indent) + c + Spaces(0);
      PaddedSplit(t.indent, c, 0);
    } else if t.value == [] {
      assert Render(t) == Spaces(t.indent) + c + Spaces(1);
      PaddedSplit(t.indent, c, 1);
    } else {
      assert Render(t) == Spaces(t.indent) + c + Spaces(0);
      assert c[0] == Marker(t.kind)[0];
      PaddedSplit(t.indent, c, 0);
    }
  }

  /** A trimmed string between two runs of spaces: the first run is the
      leading-space count (unless nothing but spaces remain) and trimming
      recovers the string. */
  lemma PaddedSplit(a: nat, c: string, b: nat)
    requires Trimmed(c) && (c != [] || b == 0)
    ensures LeadingSpaces(Spaces(a) + c + Spaces(b)) == a
    ensures Trim(Spaces(a) + c + Spaces(b)) == c
  {
    TrimPadded(a, c, b);
    assert Spaces(a) + c + Spaces(b) == Spaces(a) + (c + Spaces(b));
    LeadingSpacesPadded(a, c + Spaces(b));
    if c == [] {
      assert c + Spaces(b) == [];
    } else {
      assert (c + Spaces(b))[0] == c[0];
    }
  }

  /** `ClassifyRender` for comments and table rows. */
  lemma MarkedRoundTrip(t: Token)
    requires WellFormed(t) && (t.kind == Comment || t.kind == TableRow)
    requires LeadingSpaces(Render(t)) == t.indent && Trim(Render(t)) == RenderedContent(t)
    ensures ClassifyLine(Render(t), t.line) == t
  {
    MarkedContent(t);
    ClassifyMarked(Render(t), t.line);
  }

  /** The rendered content of a comment or table row opens with its
      marker, and what follows the marker trims to the token's value. */
  lemma MarkedContent(t: Token)
    requires WellFormed(t) && (t.kind == Comment || t.kind == TableRow)
    ensures var c := RenderedContent(t);
      && c != []
      && (c[0] == '#' <==> t.kind == Comment)
      && (t.kind == TableRow ==> IsTableRow(c))
      && Trim(c[1..]) == t.value
  {
    var c := RenderedContent(t);
    var m := Marker(t.kind);
    assert |m| == 1 && (m[0] == '#' <==> t.kind == Comment);
    assert c == if t.value == [] then m else m + " " + t.value;
    MarkerRest(m, t.value);
    if t.value != [] {
      assert c[0] == m[0] && c[|c| - 1] == t.value[|t.value| - 1];
    }
  }

  /** After a one-character marker, the rest of a marked content trims
      to its value. */
  lemma MarkerRest(m: string, v: string)
    requires |m| == 1 && Trimmed(v)
    ensures Trim((if v == [] then m else m + " " + v)[1..]) == v
  {
    if v == [] {
      assert m[1..] == Spaces(0) + v + Spaces(0);
      TrimPadded(0, v, 0);
    } else {
      assert (m + " " + v)[1..] == Spaces(1) + v + Spaces(0);
      TrimPadded(1, v, 0);
    }
  }

  /** A line whose content opens with a comment marker or is a table row
      gets the marker's kind and the trimmed rest of its content. */
  lemma ClassifyMarked(line: string, index: nat)
    requires Trim(line) != [] && (Trim(line)[0] == '#' || IsTableRow(Trim(line)))
    ensures ClassifyLine(line, index)
      == Token(if Trim(line)[0] == '#' then Comment else TableRow, Trim(Trim(line)[1..]), index, LeadingSpaces(line))
  {
  }

  /** `ClassifyRender` for keyword lines. */
  lemma KeywordRoundTrip(t: Token)
    requires WellFormed(t) && IsKeywordKind(t.kind)
    requires LeadingSpaces(Render(t)) == t.indent && Trim(Render(t)) == RenderedContent(t)
    ensures ClassifyLine(Render(t), t.line) == t
  {
    KeywordFound(t);
    ClassifyKeyword(Render(t), t.line);
  }

  /** The keyword table finds a keyword token's own keyword in its
      rendered content, which is neither a comment nor a table row. */
  lemma KeywordFound(t: Token)
    requires WellFormed(t) && IsKeywordKind(t.kind)
    ensures var c := RenderedContent(t);
      && c != [] && c[0] != '#' && !IsTableRow(c)
      && FindKeyword(c, Keywords) == Some((t.kind, c[|Opening(c, t.kind)|..]))
      && Trim(c[|Opening(c, t.kind)|..]) == t.value
  {
    var c := RenderedContent(t);
    KeywordContent(t);
    KeywordLineOpening(c, t.kind);
    FindKeywordAgrees(c);
    var r := FindKeyword(c, Keywords);
    KeywordsExclusive(c, t.kind, r.value.0);
  }

  /** A line whose content is neither a comment nor a table row and opens
      with a keyword gets that keyword's kind and the trimmed rest. */
  lemma ClassifyKeyword(line: string, index: nat)
    requires Trim(line) != [] && Trim(line)[0] != '#' && !IsTableRow(Trim(line))
    requires FindKeyword(Trim(line), Keywords).Some?
    ensures var o := FindKeyword(Trim(line), Keywords).value;
      ClassifyLine(line, index) == Token(o.0, Trim(o.1), index, LeadingSpaces(line))
  {
  }

  /** The rendered content of a keyword token is a line of its keyword
      opened by the bare marker, and what follows the marker trims to the
      token's value. */
  lemma KeywordContent(t: Token)
    requires WellFormed(t) && IsKeywordKind(t.kind)
    ensures KeywordLine(RenderedContent(t), t.kind)
    ensures Opening(RenderedContent(t), t.kind) == Marker(t.kind)
    ensures Trim(RenderedContent(t)[|Marker(t.kind)|..]) == t.value
  {
    var c := RenderedContent(t);
    var m := Marker(t.kind);
    assert c[..|m|] == m;
    if t.value == [] {
      assert c == m;
      assert !StartsWith(c, m + ":");
      assert c[|m|..] == Spaces(0) + [] + Spaces(0);
      TrimPadded(0, [], 0);
    } else {
      assert c == m + " " + t.value;
      assert c[..|m| + 1] == m + " ";
      assert c[|m|] == ' ';
      assert !StartsWith(c, m + ":") by { assert (m + ":")[|m|] == ':'; }
      assert c[|m|..] == Spaces(1) + t.value + Spaces(0);
      TrimPadded(1, t.value, 0);
    }
  }

  /** Classifying is a normal form: classifying the canonical line of a
      line's token gives the token again. */
  lemma ClassifyIdempotent(line: string, index: nat)
    ensures ClassifyLine(Render(ClassifyLine(line, index)), index) == ClassifyLine(line, index)
  {
    var t := ClassifyLine(line, index);
    ClassifyKinds(line, index);
    ClassifyWellFormed(line, index);
    ClassifyRender(t);
  }

  /** A lone bar is a table row, and its value is empty. */
  lemma LoneBarRow(index: nat)
    ensures ClassifyLine("|", index) == Token(TableRow, [], index, 0)
  {
    var c := "|";
    TrimPadded(0, c, 0);
    assert Spaces(0) + c + Spaces(0) == c;
    assert c[1..] == Spaces(0) + [] + Spaces(0);
    TrimPadded(0, [], 0);
    ClassifyMarked(c, index);
  }

  /** A step keyword followed by a colon, at any indent, gives that
      step's token: the colon and the spaces after it are not part of
      the value. */
  lemma StepColonLine(n: nat, index: nat, kind: TokenType, v: string)
    requires IsStepKind(kind) && Trimmed(v)
    ensures ClassifyLine(Spaces(n) + Marker(kind) + ": " + v, index) == Token(kind, v, index, n)
  {
    var line := Spaces(n) + Marker(kind) + ": " + v;
    StepColonSplit(n, kind, v);
    StepColonFound(Trim(line), kind, v);
    ClassifyKeyword(line, index);
  }

  /** The content of an indented colon step line is the keyword, its
      colon and the value, and its indent is the padding. */
  lemma StepColonSplit(n: nat, kind: TokenType, v: string)
    requires IsStepKind(kind) && Trimmed(v)
    ensures var line := Spaces(n) + Marker(kind) + ": " + v;
      && LeadingSpaces(line) == n
      && Trim(line) == if v == [] then Marker(kind) + ":" else Marker(kind) + ": " + v
  {
    var m := Marker(kind);
    assert m != [] && m[0] != ' ';
    var line := Spaces(n) + m + ": " + v;
    if v == [] {
      var c := m + ":";
      assert c[0] == m[0] && c[|c| - 1] == ':';
      assert line == Spaces(n) + c + Spaces(1);
      PaddedSplit(n, c, 1);
    } else {
      var c := m + ": " + v;
      assert c[0] == m[0] && c[|c| - 1] == v[|v| - 1];
      assert line == Spaces(n) + c + Spaces(0);
      PaddedSplit(n, c, 0);
    }
  }

  /** The keyword table finds a colon step content's own keyword, and
      what it leaves after the colon trims to the value. */
  lemma StepColonFound(c: string, kind: TokenType, v: string)
    requires IsStepKind(kind) && Trimmed(v)
    requires c == if v == [] then Marker(kind) + ":" else Marker(kind) + ": " + v
    ensures c != [] && c[0] != '#' && !IsTableRow(c)
    ensures FindKeyword(c, Keywords).Some?
    ensures FindKeyword(c, Keywords).value.0 == kind
    ensures Trim(FindKeyword(c, Keywords).value.1) == v
  {
    var m := Marker(kind);
    AfterColon(m, v);
    assert StartsWith(c, m + ":");
    assert KeywordLine(c, kind) && Opening(c, kind) == m + ":";
    KeywordLineOpening(c, kind);
    FindKeywordAgrees(c);
    KeywordsExclusive(c, kind, FindKeyword(c, Keywords).value.0);
  }

  /** A marker, a colon, and a value after one space: the content opens
      with the marker and colon, and what follows trims to the value. */
  lemma AfterColon(m: string, v: string)
    requires Trimmed(v)
    ensures var c := if v == [] then m + ":" else m + ": " + v;
      && c[..|m| + 1] == m + ":"
      && Trim(c[|m| + 1..]) == v
  {
    if v == [] {
      assert (m + ":")[|m| + 1..] == Spaces(0) + v + Spaces(0);
      TrimPadded(0, v, 0);
    } else {
      assert (m + ": " + v)[..|m| + 1] == m + ":";
      assert (m + ": " + v)[|m| + 1..] == Spaces(1) + v + Spaces(0);
      TrimPadded(1, v, 0);
    }
  }
}
