# Gherkin line lexer

A model of the line lexer in package `lexer` of godog's Gherkin reader,
as its test suite fixes its contract. The lexer turns a feature file
into a stream of `Token{Type, Value, Line, Indent}` values, one per physical
line, followed by a final `EOF`:

- a header keyword with its colon (`Feature:`, `Background:`, `Scenario:`) gives
  `FEATURE`, `BACKGROUND` or `SCENARIO`;
- a step keyword (`Given`, `When`, `Then`) followed by a space or a colon, or
  ending the line, gives `GIVEN`, `WHEN` or `THEN`;
- a line whose content starts with `#` gives `COMMENT`;
- a line whose content starts and ends with `|` gives `TABLE_ROW`, and a lone
  `|` counts as both;
- a blank line gives `NEW_LINE`;
- any other line gives `TEXT`.

The value is the trimmed text after the marker (and after a step's colon), and a `TEXT` value is the
trimmed line itself. A table row drops only its opening bar and the spaces
after it, so the closing bar stays. `Line` is the zero-based number of the
physical line, and `Indent` is that line's own count of leading spaces.

The project is organised as the lexer is:

| file | module | contents |
|---|---|---|
| `strings.dfy` | `Strings` | spaces, leading and trailing space counts, trimming, joining |
| `tokens.dfy` | `Tokens` | `TokenType`, `Token`, the EOF token |
| `reader.dfy` | `LineReader` | cutting the input into physical lines at `'\n'` |
| `syntax.dfy` | `LineSyntax` | the shape of each kind of line, and `Render`, the canonical line for a token |
| `classifier.dfy` | `Classifier` | the keyword table and `ClassifyLine` |
| `classifier_facts.dfy` | `ClassifierFacts` | what the classifier guarantees about every line |
| `lexer.dfy` | `Lexer` | the pull-based lexer state, `Next`, `Drain`, `Tokenize` |
| `lexer_facts.dfy` | `LexerFacts` | the shape of every stream, pulls after EOF, and the test's collection loop `Lex` |
| `scenarios.dfy` | `Scenarios` | the test suite's samples, its `indent` helper and its three scenarios |

The lexer state is `(rest of input, lines read, done)`. `Next` either hands
out the next line's token or enters the terminal state and hands out
`EOF`, which it then repeats. The lexer is parameterised by its line
classifier, so the facts about the stream hold for any classifier, and
`Tokenize` instantiates it with `ClassifyLine`.

## Model

| member | source | states |
|---|---|---|
| Scenarios.IndentSpaces | gherkin/lexer/lexer_test.go:32-34 | `indent(n, s)` is `s` after exactly `n` spaces, so its leading-space count is `n` plus that of `s` |
| LineReader.ReadLine | gherkin/lexer/lexer_test.go:105-117 | one read is exhausted exactly on empty input; otherwise it returns a newline-free line and a shorter rest, and line, newline and rest rebuild the input |
| LineReader.LinesOfJoin | gherkin/lexer/lexer_test.go:105-116 | newline-free lines joined with `"\n"` read back as exactly those lines, provided the last is not empty |
| LineReader.LinesOfTerminated | gherkin/lexer/lexer_test.go:105-116 | newline-free lines, each followed by a newline, read back as exactly those lines |
| LineReader.TerminatedOfLines | gherkin/lexer/lexer_test.go:105-116 | writing the lines back, each with its newline, rebuilds the input, adding only a final newline when the input lacked one |
| Strings.TrimSplits | gherkin/lexer/lexer_test.go:42-45 | a line is its leading spaces, its trimmed content and its trailing spaces, in that order |
| Strings.TrimEmpty | gherkin/lexer/lexer_test.go:106-109 | trimming leaves nothing exactly when the line holds only spaces |
| Classifier.FindKeywordSpec | gherkin/lexer/lexer_test.go:123-139 | the keyword lookup finds nothing exactly when no table row matches, and what it finds is a matching row's kind and the text that row's match leaves: after its marker, and after a step keyword's colon when one follows |
| ClassifierFacts.FindKeywordAgrees | gherkin/lexer/lexer_test.go:123-139 | the lookup finds a keyword exactly when the content opens with one, and returns the text after it |
| ClassifierFacts.KeywordsExclusive | gherkin/lexer/lexer_test.go:130-138 | no content opens with two different keywords, so the table's order does not decide the kind |
| ClassifierFacts.ClassifyBasics | gherkin/lexer/lexer_test.go:46-66 | every line's token has the line's number, the line's own leading-space count, is never EOF, and is an empty `NEW_LINE` exactly when the line is blank |
| ClassifierFacts.ClassifyKinds | gherkin/lexer/lexer_test.go:123-139 | the token type is the one the content's shape names, in both directions: `#` gives `COMMENT`, a bar-delimited row `TABLE_ROW`, a keyword line that keyword's type, and only the remaining non-blank lines `TEXT` |
| ClassifierFacts.ClassifyValue | gherkin/lexer/lexer_test.go:42-60 | the trimmed content is the kind's opening (its marker, and a step keyword's colon when one follows), some separating spaces, then the value |
| ClassifierFacts.ClassifyWellFormed | gherkin/lexer/lexer_test.go:42-60 | every token's value is trimmed; a blank line's value is empty; a row's value is empty or ends in its closing bar; a `TEXT` value is nothing else's shape |
| ClassifierFacts.ClassifyRender | gherkin/lexer/lexer_test.go:9-29 | every well-formed token, written as its canonical line and classified again, comes back unchanged |
| ClassifierFacts.ClassifyIdempotent | gherkin/lexer/lexer_test.go:9-29 | classifying the canonical line of any line's token gives that token again |
| Lexer.Next | gherkin/lexer/lexer_test.go:98-101 | a pull from a finished or exhausted lexer enters the terminal state and gives EOF numbered by the lines read; otherwise it classifies the next line under its number and moves on one line |
| Lexer.Drain | gherkin/lexer/lexer_test.go:120-122 | pulling until the terminal state gives a stream that ends in EOF |
| LexerFacts.DrainFollowsLines | gherkin/lexer/lexer_test.go:117-122 | draining a running lexer gives each unread line's token, numbered on from the lines already read, then EOF |
| LexerFacts.TokenizeFollowsLines | gherkin/lexer/lexer_test.go:117-122 | the token stream of an input is each physical line classified under its zero-based number, in order, then EOF |
| LexerFacts.StreamShape | gherkin/lexer/lexer_test.go:46-96 | one token per line plus a final EOF; line numbers are the zero-based positions and never decrease; each indent is the line's own; no line gives EOF; blank lines give empty `NEW_LINE` tokens |
| LexerFacts.TokenOfLine | gherkin/lexer/lexer_test.go:171-181 | the token at position `i` is the classification of physical line `i` alone |
| LexerFacts.TokenIsLocal | gherkin/lexer/lexer_test.go:171-181 | two inputs that share a physical line at the same position give the same token for it, whatever their other lines |
| LexerFacts.PullsFollowDrain | gherkin/lexer/lexer_test.go:37-101 | the `k+1`-th pull gives the `k`-th token of the drained stream, or its final EOF again once the stream is used up |
| LexerFacts.PullsOnInput | gherkin/lexer/lexer_test.go:98-101 | the first pulls from a fresh lexer give the lines' tokens in order, and every pull after the last line gives EOF, so lexing any finite input ends |
| LexerFacts.PullStep | gherkin/lexer/lexer_test.go:120-122 | a pull moves one token from what is left to what was handed out, and with a classifier that never gives EOF that token is EOF exactly when the lexer has finished |
| LexerFacts.ClassifyNeverEof | gherkin/lexer/lexer_test.go:120-122 | no line is classified as EOF, so the only EOF is the final one |
| LexerFacts.CollectedAll | gherkin/lexer/lexer_test.go:120-122 | the tokens collected before an EOF that left nothing to pull are the whole stream but its final EOF, and none of them is EOF |
| LexerFacts.Lex | gherkin/lexer/lexer_test.go:119-122 | the tests' loop, pulling until EOF and collecting the tokens before it, collects the whole stream but its final EOF, and no collected token is EOF |
| ClassifierFacts.LoneBarRow | gherkin/lexer/lexer_test.go:26-29 | a lone bar both opens and closes a row, so it is a `TABLE_ROW` with an empty value |
| ClassifierFacts.StepColonLine | gherkin/lexer/lexer_test.go:18-24 | for every step keyword, indent and trimmed value: the step line with a colon after the keyword, where the samples have a space, gives that step's token at that indent, and neither the colon nor the space after it is part of the value |
| Scenarios.FeatureSampleLines | gherkin/lexer/lexer_test.go:9-12 | the feature sample is its four physical lines |
| Scenarios.FeatureRead | gherkin/lexer/lexer_test.go:36-102 | the feature sample gives `FEATURE "gherkin lexer"` at line 0, indent 0, then three `TEXT` tokens carrying the narrative lines at lines 1-3, indent 2, then EOF |
| Scenarios.FeatureReadPulls | gherkin/lexer/lexer_test.go:37-101 | pull by pull: the first four pulls give those four tokens, and the fifth and every later pull give EOF |
| Scenarios.MinimalFileLines | gherkin/lexer/lexer_test.go:105-116 | the mixed file is its thirteen physical lines, with a blank line after the feature sample and after the background's step |
| Scenarios.MinimalFeature | gherkin/lexer/lexer_test.go:104-145 | the mixed file gives exactly the listed tokens, whose types in file order are FEATURE, TEXT, TEXT, TEXT, NEW_LINE, BACKGROUND, GIVEN, NEW_LINE, COMMENT, SCENARIO, GIVEN, WHEN, THEN and EOF |
| Scenarios.MinimalFeatureLoop | gherkin/lexer/lexer_test.go:117-144 | the types the test's loop collects before EOF are the expected thirteen |
| Scenarios.TableFileLines | gherkin/lexer/lexer_test.go:148-152 | the table file is its six physical lines; indenting the sample indents only its first line, so the rows keep their own six spaces |
| Scenarios.TableRowLine | gherkin/lexer/lexer_test.go:26-29 | a row line at any indent, a bar, a space and a trimmed value ending in a bar, gives a `TABLE_ROW` at that indent whose value is the row without its opening bar and the space after it |
| Scenarios.TableRowReading | gherkin/lexer/lexer_test.go:147-185 | the table file gives BACKGROUND, the step `Given there are users:` still as GIVEN, one TABLE_ROW per row, and the closing GIVEN, with indents 2, 4, 6, 6, 6, 4; the first row's value keeps its inner bars and its closing bar |
| Scenarios.TableRowLoop | gherkin/lexer/lexer_test.go:155-184 | the types, values and indents the test's loop collects before EOF are the expected ones, and the first row's value is kept with its closing bar |

## Left out

- Reading from an `io.Reader`: the input is a whole `string`. Read errors are not modelled, so `Next` has no failure path.
- The Go `testing` package, `t.Fatalf` and the `%s` formatting of token types: each test's checks become the ensures of a lemma or method.
- The implementation of package `lexer` is not part of this model. The samples and expected tokens come from the test suite. Where no test speaks, the model follows the lexer's stated classification rules: a colon may follow a step keyword, EOF repeats once reached, any comment's value is its trimmed text after `#`, a line whose content opens with a bar but does not close with one is `TEXT`, and a line that only closes with a bar is classified by the remaining rules (comment, keyword, otherwise `TEXT`).
- Table-row values: stripping both outer bars would give `name | lastname | num`, but the test expects `name | lastname | num |`, with the closing bar kept. The model follows the test: the value is the content after the opening bar, trimmed.
- `And` and `But` continuation keywords are not recognised, so such lines give `TEXT`. No test exercises them, and the token type set has no type for them.
- A step keyword that ends the trimmed content (a bare `Given`) gives its step type with an empty value, although a literal reading of "a keyword followed by a colon or whitespace" would make it `TEXT`. The end of the content is a separator for every keyword, as it is for `Background:` ending the line (gherkin/lexer/lexer_test.go:14 and :149), and the canonical line of a step token with an empty value must read back as that token. No test has a bare step line.
- A step keyword followed by anything but a space or a colon (`Givenx`) is `TEXT`, and a header keyword needs its colon.
- Whitespace is the space character only: tabs, carriage returns (CRLF line ends) and other Unicode spaces are ordinary characters, and no rune width is modelled. Indents count spaces.
- The line reader behaves as a buffered reader reading up to each newline does: a newline that ends the input opens no further empty line, and empty input gives EOF straight away.
- The EOF token carries the number of lines read, an empty value and indent 0. The tests check only its type.
- Concurrency: the lexer is a single-caller value, and the state is passed explicitly.
- The downstream parser and step execution, which consume the token stream.
