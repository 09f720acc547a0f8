/** The lexer's test suite: its sample inputs, its `indent` helper, and
    the three scenarios it checks, each proved of the model. */
module Scenarios {
  import opened Strings
  import opened Tokens
  import opened LineReader
  import opened LineSyntax
  import opened Classifier
  import opened ClassifierFacts
  import opened Lexer
  import opened LexerFacts

  /** `n` spaces put before `s`, as the tests' `indent` helper builds lines. */
  function Indent(n: nat, s: string): string {
    Spaces(n) + s
  }

  /** An indented line is `s` after exactly `n` more leading spaces. */
  lemma IndentSpaces(n: nat, s: string)
    ensures Indent(n, s)[n..] == s
    ensures LeadingSpaces(Indent(n, s)) == n + LeadingSpaces(s)
  {
    LeadingSpacesPadded(n, s);
  }

  /** The physical lines of the multi-line feature sample. */
  const FeatureTitle := "Feature: gherkin lexer"
  const FeatureLines: seq<string> := [
    FeatureTitle,
    Indent(2, "in order to run features"),
    Indent(2, "as gherkin lexer"),
    Indent(2, "I need to be able to parse a feature")
  ]

  /** The physical lines of the step-with-table sample. */
  const GivenTableLines: seq<string> := [
    "Given there are users:",
    Indent(6, "| name | lastname | num |"),
    Indent(6, "| Jack | Sparrow  | 4   |"),
    Indent(6, "| John | Doe      | 79  |")
  ]

  const SampleFeature := Join(FeatureLines, "\n")
  const SampleBackground := "Background:"
  const SampleScenario := "Scenario: tokenize feature file"
  const SampleStepGiven := "Given a feature file"
  const SampleStepWhen := "When I try to read it"
  const SampleComment := "# an important comment"
  const SampleStepThen := "Then it should give me tokens"
  const SampleStepGivenTable := Join(GivenTableLines, "\n")

  /** A line that is `n` spaces, marker of `kind`, one space and `v`
      gives the token that renders as it. */
  lemma MarkedLine(n: nat, kind: TokenType, v: string, i: nat)
    requires WellFormed(Token(kind, v, i, n)) && kind != Text && kind != NewLine
    ensures ClassifyLine(Indent(n, Marker(kind) + " " + v), i) == Token(kind, v, i, n)
  {
    assert Render(Token(kind, v, i, n)) == Indent(n, Marker(kind) + " " + v);
    ClassifyRender(Token(kind, v, i, n));
  }

  /** A line that is `n` spaces and then free text `v` gives a TEXT token. */
  lemma TextLine(n: nat, v: string, i: nat)
    requires WellFormed(Token(Text, v, i, n))
    ensures ClassifyLine(Indent(n, v), i) == Token(Text, v, i, n)
  {
    ClassifyRender(Token(Text, v, i, n));
  }

  /** An indented keyword standing alone gives its token with an empty value. */
  lemma BareKeywordLine(n: nat, kind: TokenType, i: nat)
    requires IsKeywordKind(kind)
    ensures ClassifyLine(Indent(n, Marker(kind)), i) == Token(kind, [], i, n)
  {
    var t := Token(kind, [], i, n);
    BareKeywordShape(n, kind);
    SameShape(Indent(n, Marker(kind)), Render(t), i);
    ClassifyRender(t);
  }

  /** An indented bare keyword and the rendering of its empty-valued token
      have the same indent and content. */
  lemma BareKeywordShape(n: nat, kind: TokenType)
    requires IsKeywordKind(kind)
    ensures LeadingSpaces(Indent(n, Marker(kind))) == LeadingSpaces(Render(Token(kind, [], 0, n))) == n
    ensures Trim(Indent(n, Marker(kind))) == Trim(Render(Token(kind, [], 0, n)))
  {
    var m := Marker(kind);
    assert m[0] != ' ';
    assert Render(Token(kind, [], 0, n)) == Spaces(n) + m + Spaces(1);
    PaddedSplit(n, m, 1);
    assert Indent(n, m) == Spaces(n) + m + Spaces(0);
    PaddedSplit(n, m, 0);
  }

  /** Lines with the same indent and the same trimmed content give the
      same token. */
  lemma SameShape(a: string, b: string, i: nat)
    requires LeadingSpaces(a) == LeadingSpaces(b) && Trim(a) == Trim(b)
    ensures ClassifyLine(a, i) == ClassifyLine(b, i)
  {
  }

  /** An empty line gives an empty NEW_LINE token with no indent. */
  lemma EmptyLine(i: nat)
    ensures ClassifyLine([], i) == Token(NewLine, [], i, 0)
  {
    ClassifyRender(Token(NewLine, [], i, 0));
    assert Render(Token(NewLine, [], i, 0)) == [];
  }

  /** Free text that opens with none of the keywords' first letters is
      not a keyword line. */
  lemma NoKeyword(v: string)
    requires v != [] && v[0] !in "FBSGWT"
    ensures forall k :: !KeywordLine(v, k)
  {
    forall k | KeywordLine(v, k) ensures false {
      KeywordLineOpening(v, k);
    }
  }

  /** An indented line keeps the newline-freedom of its text. */
  lemma IndentNoNewline(n: nat, s: string)
    requires '\n' !in s
    ensures '\n' !in Indent(n, s)
  {
    var r := Indent(n, s);
    forall i | 0 <= i < |r| ensures r[i] != '\n' {
      if i >= n {
        assert r[i] == s[i - n];
      }
    }
  }

  /** The title line of the feature sample gives FEATURE with the title. */
  lemma FeatureTitleLine()
    ensures ClassifyLine(FeatureLines[0], 0) == Token(Feature, "gherkin lexer", 0, 0)
  {
    assert FeatureTitle == Marker(Feature) + " " + "gherkin lexer";
    assert Indent(0, FeatureTitle) == FeatureTitle;
    MarkedLine(0, Feature, "gherkin lexer", 0);
  }

  /** A narrative line indented by two gives TEXT with the line's text. */
  lemma NarrativeLine(i: nat, v: string)
    requires Trimmed(v) && v != [] && v[0] !in "#|FBSGWT"
    ensures ClassifyLine(Indent(2, v), i) == Token(Text, v, i, 2)
  {
    NoKeyword(v);
    TextLine(2, v, i);
  }

  /** The three narrative lines of the feature sample give TEXT tokens. */
  lemma FeatureNarrative()
    ensures ClassifyLine(FeatureLines[1], 1) == Token(Text, "in order to run features", 1, 2)
    ensures ClassifyLine(FeatureLines[2], 2) == Token(Text, "as gherkin lexer", 2, 2)
    ensures ClassifyLine(FeatureLines[3], 3) == Token(Text, "I need to be able to parse a feature", 3, 2)
  {
    NarrativeLine(1, "in order to run features");
    NarrativeLine(2, "as gherkin lexer");
    NarrativeLine(3, "I need to be able to parse a feature");
  }

  /** The background sample, at any indent, gives an empty BACKGROUND. */
  lemma BackgroundLine(n: nat, i: nat)
    ensures ClassifyLine(Indent(n, SampleBackground), i) == Token(Background, [], i, n)
  {
    assert SampleBackground == Marker(Background);
    BareKeywordLine(n, Background, i);
  }

  /** A step keyword, a space and a trimmed value, at any indent, give
      that step's token with the value. */
  lemma StepLine(n: nat, i: nat, kind: TokenType, sample: string, v: string)
    requires IsStepKind(kind)
    requires sample == Marker(kind) + " " + v && Trimmed(v)
    ensures ClassifyLine(Indent(n, sample), i) == Token(kind, v, i, n)
  {
    MarkedLine(n, kind, v, i);
  }

  /** The comment sample gives COMMENT with the text after the `#`. */
  lemma CommentLine(n: nat, i: nat)
    ensures ClassifyLine(Indent(n, SampleComment), i) == Token(Comment, "an important comment", i, n)
  {
    assert SampleComment == Marker(Comment) + " " + "an important comment";
    MarkedLine(n, Comment, "an important comment", i);
  }

  /** The scenario sample gives SCENARIO with the scenario's title. */
  lemma ScenarioLine(n: nat, i: nat)
    ensures ClassifyLine(Indent(n, SampleScenario), i) == Token(Scenario, "tokenize feature file", i, n)
  {
    assert SampleScenario == Marker(Scenario) + " " + "tokenize feature file";
    MarkedLine(n, Scenario, "tokenize feature file", i);
  }

  /** A step sample is its keyword, a space and its trimmed text. */
  lemma StepSample(sample: string, kind: TokenType, v: string)
    requires IsStepKind(kind) && |Marker(kind)| < |sample|
    requires sample[..|Marker(kind)|] == Marker(kind) && sample[|Marker(kind)|] == ' '
    requires v == sample[|Marker(kind)| + 1..] && v != [] && v[0] != ' ' && v[|v| - 1] != ' '
    ensures sample == Marker(kind) + " " + v && Trimmed(v)
  {
    var m := Marker(kind);
    assert sample == sample[..|m|] + [sample[|m|]] + sample[|m| + 1..];
  }

  /** The `Given` step sample gives GIVEN with the step's text. */
  lemma GivenLine(n: nat, i: nat)
    ensures ClassifyLine(Indent(n, SampleStepGiven), i) == Token(Given, "a feature file", i, n)
  {
    StepSample(SampleStepGiven, Given, "a feature file");
    StepLine(n, i, Given, SampleStepGiven, "a feature file");
  }

  /** The `When` step sample gives WHEN with the step's text. */
  lemma WhenLine(n: nat, i: nat)
    ensures ClassifyLine(Indent(n, SampleStepWhen), i) == Token(When, "I try to read it", i, n)
  {
    StepSample(SampleStepWhen, When, "I try to read it");
    StepLine(n, i, When, SampleStepWhen, "I try to read it");
  }

  /** The `Then` step sample gives THEN with the step's text. */
  lemma ThenLine(n: nat, i: nat)
    ensures ClassifyLine(Indent(n, SampleStepThen), i) == Token(Then, "it should give me tokens", i, n)
  {
    StepSample(SampleStepThen, Then, "it should give me tokens");
    StepLine(n, i, Then, SampleStepThen, "it should give me tokens");
  }

  /** A row line, at any indent, that is a bar, a space and a trimmed
      value ending in a bar gives TABLE_ROW with exactly that value: the
      opening bar and the space go, the closing bar stays. */
  lemma TableRowLine(n: nat, i: nat, v: string)
    requires Trimmed(v) && v != [] && v[|v| - 1] == '|'
    ensures ClassifyLine(Indent(n, Marker(TableRow) + " " + v), i) == Token(TableRow, v, i, n)
  {
    MarkedLine(n, TableRow, v, i);
  }

  /** The feature sample is its four physical lines. */
  lemma FeatureSampleLines()
    ensures Lines(SampleFeature) == FeatureLines
  {
    FeatureLinesClean();
    LinesOfJoin(FeatureLines);
  }

  /** The feature sample gives a FEATURE token carrying the title, three
      TEXT tokens carrying the narrative lines, each numbered by its line
      and indented by its own spaces, then EOF. */
  lemma FeatureRead()
    ensures var ts := Tokenize(SampleFeature);
      && |ts| == 5
      && ts[0] == Token(Feature, "gherkin lexer", 0, 0)
      && ts[1] == Token(Text, "in order to run features", 1, 2)
      && ts[2] == Token(Text, "as gherkin lexer", 2, 2)
      && ts[3] == Token(Text, "I need to be able to parse a feature", 3, 2)
      && ts[4].kind == Eof
  {
    FeatureSampleLines();
    TokenizeFollowsLines(SampleFeature);
    FeatureTitleLine();
    FeatureNarrative();
  }

  /** The feature scenario pull by pull: the first four pulls from a
      fresh lexer give the header and the narrative, and the fifth and
      every later pull give EOF. */
  lemma FeatureReadPulls()
    ensures TokenAt(New(SampleFeature), ClassifyLine, 0) == Token(Feature, "gherkin lexer", 0, 0)
    ensures TokenAt(New(SampleFeature), ClassifyLine, 1) == Token(Text, "in order to run features", 1, 2)
    ensures TokenAt(New(SampleFeature), ClassifyLine, 2) == Token(Text, "as gherkin lexer", 2, 2)
    ensures TokenAt(New(SampleFeature), ClassifyLine, 3) == Token(Text, "I need to be able to parse a feature", 3, 2)
    ensures forall k: nat :: k >= 4 ==> TokenAt(New(SampleFeature), ClassifyLine, k).kind == Eof
  {
    var ts := Tokenize(SampleFeature);
    PullsAreDrain(SampleFeature, ClassifyLine);
    FeatureRead();
    PickPastEnd(ts);
  }

  /** The token types of a stream, in order. */
  function Kinds(ts: seq<Token>): (ks: seq<TokenType>)
    ensures |ks| == |ts| && forall i :: 0 <= i < |ts| ==> ks[i] == ts[i].kind
  {
    seq(|ts|, i requires 0 <= i < |ts| => ts[i].kind)
  }

  /** The indents of a stream, in order. */
  function Indents(ts: seq<Token>): (ns: seq<nat>)
    ensures |ns| == |ts| && forall i :: 0 <= i < |ts| ==> ns[i] == ts[i].indent
  {
    seq(|ts|, i requires 0 <= i < |ts| => ts[i].indent)
  }

  /** The values of a stream, in order. */
  function Values(ts: seq<Token>): (vs: seq<string>)
    ensures |vs| == |ts| && forall i :: 0 <= i < |ts| ==> vs[i] == ts[i].value
  {
    seq(|ts|, i requires 0 <= i < |ts| => ts[i].value)
  }

  /** What the tests collect before EOF is the start of the whole stream,
      type by type, value by value and indent by indent. */
  lemma CollectedPrefix(tokens: seq<Token>, e: Token, ts: seq<Token>)
    requires tokens + [e] == ts
    ensures Kinds(tokens) == Kinds(ts)[..|tokens|]
    ensures Values(tokens) == Values(ts)[..|tokens|]
    ensures Indents(tokens) == Indents(ts)[..|tokens|]
  {
    assert forall i :: 0 <= i < |tokens| ==> tokens[i] == ts[i];
  }

  /** The mixed file: the feature sample and a blank line, an indented
      background with one step and a blank line, then a comment and a
      scenario with three steps. */
  const MinimalFile := Join(MinimalParts, "\n")

  /** The parts the mixed file is joined from. */
  const MinimalParts: seq<string> := [
    SampleFeature + "\n",
    Indent(2, SampleBackground),
    Indent(4, SampleStepGiven) + "\n",
    Indent(2, SampleComment),
    Indent(2, SampleScenario),
    Indent(4, SampleStepGiven),
    Indent(4, SampleStepWhen),
    Indent(4, SampleStepThen)
  ]

  /** The thirteen physical lines of the mixed file. */
  const MinimalLines: seq<string> := [
    FeatureTitle,
    Indent(2, "in order to run features"),
    Indent(2, "as gherkin lexer"),
    Indent(2, "I need to be able to parse a feature"),
    "",
    Indent(2, SampleBackground),
    Indent(4, SampleStepGiven),
    "",
    Indent(2, SampleComment),
    Indent(2, SampleScenario),
    Indent(4, SampleStepGiven),
    Indent(4, SampleStepWhen),
    Indent(4, SampleStepThen)
  ]

  /** The mixed file is the feature lines followed by its other nine lines. */
  lemma MinimalFileLines()
    ensures Lines(MinimalFile) == MinimalLines
  {
    MinimalFileJoin();
    MinimalLinesClean();
    LinesOfJoin(MinimalLines);
  }

  /** The mixed file joins its thirteen lines with newlines. */
  lemma MinimalFileJoin()
    ensures MinimalFile == Join(MinimalLines, "\n")
  {
    var a := FeatureLines + [""];
    var b := MinimalLines[5];
    var c := [MinimalLines[6], ""];
    var d := MinimalLines[8..];
    JoinAppend(FeatureLines, [""], "\n");
    assert Join(a, "\n") == SampleFeature + "\n";
    assert Join(c, "\n") == Indent(4, SampleStepGiven) + "\n";
    var parts := [Join(a, "\n"), b, Join(c, "\n")] + d;
    assert parts == MinimalParts;
    assert parts[1..] == [b] + ([Join(c, "\n")] + d);
    assert ([b] + ([Join(c, "\n")] + d))[1..] == [Join(c, "\n")] + d;
    JoinNested(c, d, "\n");
    assert ([b] + (c + d))[1..] == c + d;
    assert Join(parts, "\n") == Join([Join(a, "\n")] + ([b] + (c + d)), "\n");
    JoinNested(a, [b] + (c + d), "\n");
    assert a + ([b] + (c + d)) == MinimalLines;
  }

  /** No line of the mixed file holds a newline, and its last is not empty. */
  lemma MinimalLinesClean()
    ensures MinimalLines[|MinimalLines| - 1] != [] && NoNewlines(MinimalLines)
  {
    var ls := MinimalLines;
    forall i | 0 <= i < |ls| ensures '\n' !in ls[i] {
      if i < 8 {
        MinimalHeadClean(i);
      } else {
        MinimalTailClean(i);
      }
    }
  }

  /** Lines 0 to 7 of the mixed file hold no newline. */
  lemma MinimalHeadClean(i: nat)
    requires i < 8
    ensures '\n' !in MinimalLines[i]
  {
    var ls := MinimalLines;
    if i == 0 {
      assert ls[i] == FeatureTitle;
    } else if i < 4 {
      FeatureLinesClean();
      assert ls[i] == FeatureLines[i];
    } else if i == 4 || i == 7 {
      assert ls[i] == [];
    } else if i == 5 {
      IndentNoNewline(2, SampleBackground);
    } else {
      IndentNoNewline(4, SampleStepGiven);
    }
  }

  /** Lines 8 to 12 of the mixed file hold no newline. */
  lemma MinimalTailClean(i: nat)
    requires 8 <= i < 13
    ensures '\n' !in MinimalLines[i]
  {
    if i == 8 {
      IndentNoNewline(2, SampleComment);
    } else if i == 9 {
      IndentNoNewline(2, SampleScenario);
    } else if i == 10 {
      IndentNoNewline(4, SampleStepGiven);
    } else if i == 11 {
      IndentNoNewline(4, SampleStepWhen);
    } else {
      IndentNoNewline(4, SampleStepThen);
    }
  }

  /** No line of the feature sample holds a newline. */
  lemma FeatureLinesClean()
    ensures NoNewlines(FeatureLines)
  {
    IndentNoNewline(2, "in order to run features");
    IndentNoNewline(2, "as gherkin lexer");
    IndentNoNewline(2, "I need to be able to parse a feature");
  }

  /** The mixed file gives its token types in file order: the feature
      header and its narrative, each blank line as NEW_LINE, the background
      and its step, the comment, the scenario and its three steps, and EOF. */
  lemma MinimalFeature()
    ensures Tokenize(MinimalFile) == MinimalTokens
    ensures Kinds(Tokenize(MinimalFile)) == [
      Feature, Text, Text, Text, NewLine,
      Background, Given, NewLine,
      Comment, Scenario, Given, When, Then,
      Eof]
  {
    MinimalFileLines();
    TokenizeFollowsLines(MinimalFile);
    MinimalStream();
    MinimalKinds();
  }

  /** The token types of the listed tokens. */
  lemma MinimalKinds()
    ensures Kinds(MinimalTokens) == [
      Feature, Text, Text, Text, NewLine,
      Background, Given, NewLine,
      Comment, Scenario, Given, When, Then,
      Eof]
  {
    MinimalHeadTokens();
    MinimalStepTokens();
  }

  /** The tokens of the mixed file's lines. */
  const MinimalTokens: seq<Token> := [
    Token(Feature, "gherkin lexer", 0, 0),
    Token(Text, "in order to run features", 1, 2),
    Token(Text, "as gherkin lexer", 2, 2),
    Token(Text, "I need to be able to parse a feature", 3, 2),
    Token(NewLine, [], 4, 0),
    Token(Background, [], 5, 2),
    Token(Given, "a feature file", 6, 4),
    Token(NewLine, [], 7, 0),
    Token(Comment, "an important comment", 8, 2),
    Token(Scenario, "tokenize feature file", 9, 2),
    Token(Given, "a feature file", 10, 4),
    Token(When, "I try to read it", 11, 4),
    Token(Then, "it should give me tokens", 12, 4),
    EofToken(13)
  ]

  /** The mixed file's lines, one by one. */
  lemma MinimalLinesAre()
    ensures |MinimalLines| == 13
    ensures MinimalLines[0] == FeatureLines[0]
    ensures MinimalLines[1] == Indent(2, "in order to run features")
    ensures MinimalLines[2] == Indent(2, "as gherkin lexer")
    ensures MinimalLines[3] == Indent(2, "I need to be able to parse a feature")
    ensures MinimalLines[4] == [] && MinimalLines[7] == []
    ensures MinimalLines[5] == Indent(2, SampleBackground)
    ensures MinimalLines[6] == Indent(4, SampleStepGiven)
    ensures MinimalLines[8] == Indent(2, SampleComment)
    ensures MinimalLines[9] == Indent(2, SampleScenario)
    ensures MinimalLines[10] == Indent(4, SampleStepGiven)
    ensures MinimalLines[11] == Indent(4, SampleStepWhen)
    ensures MinimalLines[12] == Indent(4, SampleStepThen)
  {
  }

  /** The listed tokens of the feature sample and the blank line after it. */
  lemma MinimalHeadTokens()
    ensures |MinimalTokens| == 14
    ensures MinimalTokens[0] == Token(Feature, "gherkin lexer", 0, 0)
    ensures MinimalTokens[1] == Token(Text, "in order to run features", 1, 2)
    ensures MinimalTokens[2] == Token(Text, "as gherkin lexer", 2, 2)
    ensures MinimalTokens[3] == Token(Text, "I need to be able to parse a feature", 3, 2)
    ensures MinimalTokens[4] == Token(NewLine, [], 4, 0)
  {
  }

  /** The listed tokens of the rest of the mixed file. */
  lemma MinimalStepTokens()
    ensures |MinimalTokens| == 14
    ensures MinimalTokens[5] == Token(Background, [], 5, 2)
    ensures MinimalTokens[6] == Token(Given, "a feature file", 6, 4)
    ensures MinimalTokens[7] == Token(NewLine, [], 7, 0)
    ensures MinimalTokens[8] == Token(Comment, "an important comment", 8, 2)
    ensures MinimalTokens[9] == Token(Scenario, "tokenize feature file", 9, 2)
    ensures MinimalTokens[10] == Token(Given, "a feature file", 10, 4)
    ensures MinimalTokens[11] == Token(When, "I try to read it", 11, 4)
    ensures MinimalTokens[12] == Token(Then, "it should give me tokens", 12, 4)
    ensures MinimalTokens[13] == EofToken(13)
  {
  }

  /** Each line of the mixed file gives the token listed for it. */
  lemma MinimalStream()
    ensures Stream(ClassifyLine, MinimalLines, 0) == MinimalTokens
  {
    MinimalEveryToken();
    StreamIs(ClassifyLine, MinimalLines, 0, MinimalTokens);
  }

  /** The listed tokens are one per line of the file, then EOF. */
  lemma MinimalEveryToken()
    ensures |MinimalTokens| == |MinimalLines| + 1
    ensures MinimalTokens[|MinimalLines|] == EofToken(|MinimalLines|)
    ensures forall i :: 0 <= i < |MinimalLines| ==> MinimalTokens[i] == ClassifyLine(MinimalLines[i], i)
  {
    MinimalLinesAre();
    MinimalStepTokens();
    forall i | 0 <= i < |MinimalLines|
      ensures MinimalTokens[i] == ClassifyLine(MinimalLines[i], i)
    {
      MinimalTokenAt(i);
    }
  }

  /** Line `i` of the mixed file gives the token listed for it. */
  lemma MinimalTokenAt(i: nat)
    requires i < 13
    ensures MinimalTokens[i] == ClassifyLine(MinimalLines[i], i)
  {
    if i < 5 {
      FeatureTokenAt(i);
    } else {
      StepsTokenAt(i);
    }
  }

  /** The feature sample and the blank line after it. */
  lemma FeatureTokenAt(i: nat)
    requires i < 5
    ensures MinimalTokens[i] == ClassifyLine(MinimalLines[i], i)
  {
    MinimalLinesAre();
    MinimalHeadTokens();
    if i == 0 {
      FeatureTitleLine();
    } else if i == 1 {
      NarrativeLine(i, "in order to run features");
    } else if i == 2 {
      NarrativeLine(i, "as gherkin lexer");
    } else if i == 3 {
      NarrativeLine(i, "I need to be able to parse a feature");
    } else {
      EmptyLine(i);
    }
  }

  /** The background, the comment, the scenario and their steps. */
  lemma StepsTokenAt(i: nat)
    requires 5 <= i < 13
    ensures MinimalTokens[i] == ClassifyLine(MinimalLines[i], i)
  {
    MinimalLinesAre();
    MinimalStepTokens();
    if i == 5 {
      BackgroundLine(2, i);
    } else if i == 6 || i == 10 {
      GivenLine(4, i);
    } else if i == 7 {
      EmptyLine(i);
    } else if i == 8 {
      CommentLine(2, i);
    } else if i == 9 {
      ScenarioLine(2, i);
    } else if i == 11 {
      WhenLine(4, i);
    } else {
      ThenLine(4, i);
    }
  }

  /** The table file: an indented background, the step-with-table sample
      indented on its first line only, and one more step. */
  const TableFile := Join(TableParts, "\n")

  /** The parts the table file is joined from. */
  const TableParts: seq<string> := [
    Indent(2, SampleBackground),
    Indent(4, SampleStepGivenTable),
    Indent(4, SampleStepGiven)
  ]

  /** The six physical lines of the table file: the table rows keep their
      own six spaces, since indenting the sample only indents its first line. */
  const TableLines: seq<string> := [
    Indent(2, SampleBackground),
    Indent(4, GivenTableLines[0]),
    GivenTableLines[1],
    GivenTableLines[2],
    GivenTableLines[3],
    Indent(4, SampleStepGiven)
  ]

  /** The table file joins its six lines with newlines. */
  lemma TableFileJoin()
    ensures TableFile == Join(TableLines, "\n")
  {
    var x, y := TableParts[0], TableParts[2];
    var g := [Indent(4, GivenTableLines[0])] + GivenTableLines[1..];
    PadJoin(4, GivenTableLines, "\n");
    assert TableParts[1] == Join(g, "\n");
    assert TableParts[1..] == [Join(g, "\n")] + [y];
    JoinNested(g, [y], "\n");
    assert Join(TableParts, "\n") == x + "\n" + Join(g + [y], "\n");
    assert ([x] + (g + [y]))[1..] == g + [y];
    assert [x] + (g + [y]) == TableLines;
  }

  /** No line of the table file holds a newline, and its last is not empty. */
  lemma TableLinesClean()
    ensures TableLines[|TableLines| - 1] != [] && NoNewlines(TableLines)
  {
    var ls := TableLines;
    forall i | 0 <= i < |ls| ensures '\n' !in ls[i] {
      if i == 0 {
        IndentNoNewline(2, SampleBackground);
      } else if i == 1 {
        IndentNoNewline(4, GivenTableLines[0]);
      } else if i == 2 {
        IndentNoNewline(6, "| name | lastname | num |");
      } else if i == 3 {
        IndentNoNewline(6, "| Jack | Sparrow  | 4   |");
      } else if i == 4 {
        IndentNoNewline(6, "| John | Doe      | 79  |");
      } else {
        IndentNoNewline(4, SampleStepGiven);
      }
    }
  }

  /** The table file is its six lines. */
  lemma TableFileLines()
    ensures Lines(TableFile) == TableLines
  {
    TableFileJoin();
    TableLinesClean();
    LinesOfJoin(TableLines);
  }

  /** The tokens of the table file's lines. */
  const TableTokens: seq<Token> := [
    Token(Background, [], 0, 2),
    Token(Given, "there are users:", 1, 4),
    Token(TableRow, "name | lastname | num |", 2, 6),
    Token(TableRow, "Jack | Sparrow  | 4   |", 3, 6),
    Token(TableRow, "John | Doe      | 79  |", 4, 6),
    Token(Given, "a feature file", 5, 4),
    EofToken(6)
  ]

  /** The table file's lines, one by one. */
  lemma TableLinesAre()
    ensures |TableLines| == 6
    ensures TableLines[0] == Indent(2, SampleBackground)
    ensures TableLines[1] == Indent(4, Marker(Given) + " " + "there are users:")
    ensures TableLines[2] == GivenTableLines[2 - 1]
    ensures TableLines[3] == GivenTableLines[3 - 1]
    ensures TableLines[4] == GivenTableLines[4 - 1]
    ensures TableLines[5] == Indent(4, SampleStepGiven)
  {
    assert GivenTableLines[0] == Marker(Given) + " " + "there are users:";
  }

  /** The listed tokens of the table file, one by one. */
  lemma TableTokensAre()
    ensures |TableTokens| == 7
    ensures TableTokens[0] == Token(Background, [], 0, 2)
    ensures TableTokens[1] == Token(Given, "there are users:", 1, 4)
    ensures TableTokens[2] == Token(TableRow, "name | lastname | num |", 2, 6)
    ensures TableTokens[3] == Token(TableRow, "Jack | Sparrow  | 4   |", 3, 6)
    ensures TableTokens[4] == Token(TableRow, "John | Doe      | 79  |", 4, 6)
    ensures TableTokens[5] == Token(Given, "a feature file", 5, 4)
    ensures TableTokens[6] == EofToken(6)
  {
  }

  /** The three rows of the step-with-table sample, as rendered table rows. */
  lemma TableRowsAre()
    ensures GivenTableLines[1] == Indent(6, Marker(TableRow) + " " + "name | lastname | num |")
    ensures GivenTableLines[2] == Indent(6, Marker(TableRow) + " " + "Jack | Sparrow  | 4   |")
    ensures GivenTableLines[3] == Indent(6, Marker(TableRow) + " " + "John | Doe      | 79  |")
  {
  }

  /** Each line of the table file gives the token listed for it. */
  lemma TableStream()
    ensures Stream(ClassifyLine, TableLines, 0) == TableTokens
  {
    TableEveryToken();
    StreamIs(ClassifyLine, TableLines, 0, TableTokens);
  }

  /** The listed tokens are one per line of the file, then EOF. */
  lemma TableEveryToken()
    ensures |TableTokens| == |TableLines| + 1
    ensures TableTokens[|TableLines|] == EofToken(|TableLines|)
    ensures forall i :: 0 <= i < |TableLines| ==> TableTokens[i] == ClassifyLine(TableLines[i], i)
  {
    TableLinesAre();
    TableTokensAre();
    forall i | 0 <= i < |TableLines|
      ensures TableTokens[i] == ClassifyLine(TableLines[i], i)
    {
      TableTokenAt(i);
    }
  }

  /** Line `i` of the table file gives the token listed for it. */
  lemma TableTokenAt(i: nat)
    requires i < 6
    ensures TableTokens[i] == ClassifyLine(TableLines[i], i)
  {
    TableLinesAre();
    TableTokensAre();
    if i == 0 {
      BackgroundLine(2, i);
    } else if i == 1 {
      StepLine(4, i, Given, Marker(Given) + " " + "there are users:", "there are users:");
    } else if i == 5 {
      GivenLine(4, i);
    } else {
      TableRowsAre();
      if i == 2 {
        TableRowLine(6, i, "name | lastname | num |");
      } else if i == 3 {
        TableRowLine(6, i, "Jack | Sparrow  | 4   |");
      } else {
        TableRowLine(6, i, "John | Doe      | 79  |");
      }
    }
  }

  /** The table file gives the background, the step that introduces the
      table (still a GIVEN, though it ends in a colon), one TABLE_ROW per
      row with the rows' own indent, and the closing step; the first row's
      value loses only its leading bar and the space after it. */
  lemma TableRowReading()
    ensures var ts := Tokenize(TableFile);
      && ts == TableTokens
      && Kinds(ts) == [Background, Given, TableRow, TableRow, TableRow, Given, Eof]
      && Indents(ts) == [2, 4, 6, 6, 6, 4, 0]
      && ts[2].value == "name | lastname | num |"
  {
    TableFileLines();
    TokenizeFollowsLines(TableFile);
    TableStream();
    TableShape();
  }

  /** The token types and indents of the listed tokens. */
  lemma TableShape()
    ensures Kinds(TableTokens) == [Background, Given, TableRow, TableRow, TableRow, Given, Eof]
    ensures Indents(TableTokens) == [2, 4, 6, 6, 6, 4, 0]
  {
    TableTokensAre();
  }

  /** The mixed-file test's loop: the token types collected before EOF
      are the expected thirteen, in file order. */
  method MinimalFeatureLoop() returns (types: seq<TokenType>)
    ensures types == [
      Feature, Text, Text, Text, NewLine,
      Background, Given, NewLine,
      Comment, Scenario, Given, When, Then]
  {
    ClassifyNeverEof();
    var tokens := Lex(MinimalFile, ClassifyLine);
    MinimalFeature();
    MinimalFileLines();
    CollectedPrefix(tokens, EofToken(13), MinimalTokens);
    types := Kinds(tokens);
  }

  /** The table test's loop: the types, values and indents collected
      before EOF, which give the expected types and indents, and the first
      row's value. */
  method TableRowLoop() returns (types: seq<TokenType>, values: seq<string>, indents: seq<nat>)
    ensures types == [Background, Given, TableRow, TableRow, TableRow, Given]
    ensures indents == [2, 4, 6, 6, 6, 4]
    ensures |values| == 6 && values[2] == "name | lastname | num |"
  {
    ClassifyNeverEof();
    var tokens := Lex(TableFile, ClassifyLine);
    TableRowReading();
    TableFileLines();
    CollectedPrefix(tokens, EofToken(6), TableTokens);
    types, values, indents := Kinds(tokens), Values(tokens), Indents(tokens);
  }
}
