/** What the lexer guarantees about the whole stream: one token per
    physical line in order, numbered from zero, each classified on its own
    line alone, then exactly one EOF, which every later pull repeats. */
module LexerFacts {
  import opened Strings
  import opened Tokens
  import opened LineReader
  import opened Classifier
  import opened ClassifierFacts
  import opened Lexer

  /** The state after `k` pulls from `s`. */
  function Pulls(s: State, f: LineClassifier, k: nat): State
    decreases k
  {
    if k == 0 then s else Pulls(Next(s, f).0, f, k - 1)
  }

  /** The token the `k+1`-th pull from `s` hands out. */
  function TokenAt(s: State, f: LineClassifier, k: nat): Token {
    Next(Pulls(s, f, k), f).1
  }

  /** A stream whose first line is `l` starts with that line's token. */
  lemma StreamCons(f: LineClassifier, l: string, ls: seq<string>, first: nat)
    ensures Stream(f, [l] + ls, first) == [f(l, first)] + Stream(f, ls, first + 1)
  {
    var a := Stream(f, [l] + ls, first);
    var b := [f(l, first)] + Stream(f, ls, first + 1);
    assert |a| == |b|;
    forall i | 0 <= i < |a| ensures a[i] == b[i] {
      if 0 < i < |a| - 1 {
        assert ([l] + ls)[i] == ls[i - 1];
      }
    }
  }

  /** Draining a lexer that has not reached EOF gives the stream of the
      lines still unread, numbered on from the lines already read. */
  lemma {:induction false} DrainFollowsLines(s: State, f: LineClassifier)
    requires !s.done
    ensures Drain(s, f) == Stream(f, Lines(s.rest), s.line)
    decreases |s.rest|
  {
    if s.rest == [] {
      assert Drain(s, f) == [EofToken(s.line)];
      assert Lines(s.rest) == [];
      assert Stream(f, [], s.line) == [EofToken(s.line)];
    } else {
      var r := ReadLine(s.rest);
      var s' := State(r.rest, s.line + 1, false);
      assert Drain(s, f) == [f(r.text, s.line)] + Drain(s', f) by {
        assert Next(s, f) == (s', f(r.text, s.line));
      }
      assert Lines(s.rest) == [r.text] + Lines(r.rest);
      DrainFollowsLines(s', f);
      StreamCons(f, r.text, Lines(r.rest), s.line);
    }
  }

  /** A token list is the stream of `ls` when it has one token per line,
      each the classification of its line, and EOF last. */
  lemma StreamIs(f: LineClassifier, ls: seq<string>, first: nat, ts: seq<Token>)
    requires |ts| == |ls| + 1 && ts[|ls|] == EofToken(first + |ls|)
    requires forall i :: 0 <= i < |ls| ==> ts[i] == f(ls[i], first + i)
    ensures Stream(f, ls, first) == ts
  {
  }

  /** The token stream of an input is the stream of its lines. */
  lemma TokenizeFollowsLines(input: string)
    ensures Tokenize(input) == Stream(ClassifyLine, Lines(input), 0)
  {
    DrainFollowsLines(New(input), ClassifyLine);
  }

  /** The lexer's stream for `ls` has one token per line, each carrying
      its line number and that line's own indent, blank lines as empty
      NEW_LINE tokens, and EOF last. */
  lemma StreamLines(ls: seq<string>, first: nat)
    ensures var ts := Stream(ClassifyLine, ls, first);
      && |ts| == |ls| + 1
      && ts[|ls|] == EofToken(first + |ls|)
      && (forall i :: 0 <= i < |ts| ==> ts[i].line == first + i)
      && (forall i :: 0 <= i < |ls| ==> ts[i] == ClassifyLine(ls[i], first + i))
      && (forall i :: 0 <= i < |ls| ==> ts[i].kind != Eof)
      && (forall i :: 0 <= i < |ls| ==> ts[i].indent == LeadingSpaces(ls[i]))
      && (forall i :: 0 <= i < |ls| ==> (ts[i].kind == NewLine <==> AllSpaces(ls[i])))
      && (forall i :: 0 <= i < |ls| ==> ts[i].kind == NewLine ==> ts[i].value == [])
  {
    var ts := Stream(ClassifyLine, ls, first);
    forall i | 0 <= i < |ls|
      ensures ts[i].line == first + i && ts[i].kind != Eof && ts[i].indent == LeadingSpaces(ls[i])
      ensures ts[i].kind == NewLine <==> AllSpaces(ls[i])
      ensures ts[i].kind == NewLine ==> ts[i].value == []
    {
      ClassifyBasics(ls[i], first + i);
    }
  }

  /** The shape of every token stream: one token per physical line, in
      order, each numbered with its zero-based line and indented by that
      line's leading spaces, blank lines as empty NEW_LINE tokens, and a
      single EOF at the end. */
  lemma StreamShape(input: string)
    ensures var ts := Tokenize(input); var ls := Lines(input);
      && |ts| == |ls| + 1
      && ts[|ls|] == EofToken(|ls|)
      && (forall i :: 0 <= i < |ts| ==> ts[i].line == i)
      && (forall i, j :: 0 <= i <= j < |ts| ==> ts[i].line <= ts[j].line)
      && (forall i :: 0 <= i < |ls| ==> ts[i] == ClassifyLine(ls[i], i))
      && (forall i :: 0 <= i < |ls| ==> ts[i].kind != Eof)
      && (forall i :: 0 <= i < |ls| ==> ts[i].indent == LeadingSpaces(ls[i]))
      && (forall i :: 0 <= i < |ls| ==> (ts[i].kind == NewLine <==> AllSpaces(ls[i])))
      && (forall i :: 0 <= i < |ls| ==> ts[i].kind == NewLine ==> ts[i].value == [])
  {
    var ts, ls := Tokenize(input), Lines(input);
    TokenizeFollowsLines(input);
    assert ts == Stream(ClassifyLine, ls, 0);
    StreamLines(ls, 0);
    assert forall i :: 0 <= i < |ts| ==> ts[i].line == i;
  }

  /** A line's token depends on that line and its number alone, never on
      its neighbours: two inputs that share a physical line at the same
      position give the same token for it. */
  lemma TokenIsLocal(a: string, b: string, i: nat)
    requires i < |Lines(a)| && i < |Lines(b)| && Lines(a)[i] == Lines(b)[i]
    ensures i < |Tokenize(a)| && i < |Tokenize(b)| && Tokenize(a)[i] == Tokenize(b)[i]
  {
    TokenOfLine(a, i);
    TokenOfLine(b, i);
  }

  /** The token at position `i` is the classification of physical line `i`. */
  lemma TokenOfLine(input: string, i: nat)
    requires i < |Lines(input)|
    ensures i < |Tokenize(input)| && Tokenize(input)[i] == ClassifyLine(Lines(input)[i], i)
  {
    TokenizeFollowsLines(input);
  }

  /** Once the terminal state is reached, pulling changes nothing. */
  lemma {:induction false} PullsStayDone(s: State, f: LineClassifier, k: nat)
    requires s.done
    ensures Pulls(s, f, k) == s
  {
    if k > 0 {
      PullsStayDone(s, f, k - 1);
    }
  }

  /** Position `k` of a non-empty stream, or its last token past the end. */
  function Pick(ts: seq<Token>, k: nat): Token
    requires ts != []
  {
    if k < |ts| then ts[k] else ts[|ts| - 1]
  }

  /** The `k+1`-th pull hands out the `k`-th token of the drained stream,
      or its final EOF again once the stream is used up. */
  lemma {:induction false} PullsFollowDrain(s: State, f: LineClassifier, k: nat)
    ensures TokenAt(s, f, k) == Pick(Drain(s, f), k)
    decreases |s.rest| + (if s.done then 0 else 1)
  {
    var s', t := Next(s, f).0, Next(s, f).1;
    var ts := Drain(s, f);
    DrainUnfold(s, f);
    if k == 0 {
      assert TokenAt(s, f, k) == t == ts[0];
    } else if s'.done {
      PullsAfterEof(s, f, k);
      assert ts == [t];
    } else {
      var us := Drain(s', f);
      assert ts == [t] + us;
      PullsUnfold(s, f, k);
      PullsFollowDrain(s', f, k - 1);
      ShiftPick(t, us, k);
    }
  }

  /** Picking inside a stream gives its token there, and picking at or
      past its last position gives the last token. */
  lemma PickPastEnd(ts: seq<Token>)
    requires ts != []
    ensures forall k: nat :: k < |ts| ==> Pick(ts, k) == ts[k]
    ensures forall k: nat :: k >= |ts| - 1 ==> Pick(ts, k) == ts[|ts| - 1]
  {
  }

  /** `PullsFollowDrain` for every number of pulls from a fresh lexer. */
  lemma PullsAreDrain(input: string, f: LineClassifier)
    ensures forall k: nat :: TokenAt(New(input), f, k) == Pick(Drain(New(input), f), k)
  {
    forall k: nat ensures TokenAt(New(input), f, k) == Pick(Drain(New(input), f), k) {
      PullsFollowDrain(New(input), f, k);
    }
  }

  /** Once a pull has handed out EOF, every later pull hands it out again. */
  lemma PullsAfterEof(s: State, f: LineClassifier, k: nat)
    requires Next(s, f).0.done && k > 0
    ensures TokenAt(s, f, k) == Next(s, f).1
  {
    var s' := Next(s, f).0;
    PullsUnfold(s, f, k);
    PullsStayDone(s', f, k - 1);
    assert Next(s', f).1 == EofToken(s'.line);
  }

  /** Picking position `k` (or the last) after a token is put in front is
      picking position `k - 1` (or the last) before. */
  lemma ShiftPick(t: Token, us: seq<Token>, k: nat)
    requires k > 0 && us != []
    ensures Pick([t] + us, k) == Pick(us, k - 1)
  {
  }

  /** The drained stream is the next token, then what is drained after it. */
  lemma DrainUnfold(s: State, f: LineClassifier)
    ensures Drain(s, f) == if Next(s, f).0.done then [Next(s, f).1] else [Next(s, f).1] + Drain(Next(s, f).0, f)
  {
  }

  /** Pulling `k` tokens is pulling one and then `k - 1` more. */
  lemma PullsUnfold(s: State, f: LineClassifier, k: nat)
    requires k > 0
    ensures TokenAt(s, f, k) == TokenAt(Next(s, f).0, f, k - 1)
  {
  }

  /** Pulling from a fresh lexer: the first `n` pulls give the tokens of
      the `n` physical lines in order, and every pull after that gives EOF,
      so tokenising any finite input ends. */
  lemma PullsOnInput(input: string, k: nat)
    ensures var ls := Lines(input);
      TokenAt(New(input), ClassifyLine, k) == if k < |ls| then ClassifyLine(ls[k], k) else EofToken(|ls|)
  {
    PullsFollowDrain(New(input), ClassifyLine, k);
    StreamShape(input);
  }

  /** A classifier that never answers EOF for a line, as `ClassifyLine`
      never does. */
  ghost predicate NeverEof(f: LineClassifier) {
    forall line, index :: f(line, index).kind != Eof
  }

  /** The lexer's classifier is one of them. */
  lemma ClassifyNeverEof()
    ensures NeverEof(ClassifyLine)
  {
    forall line, index ensures ClassifyLine(line, index).kind != Eof {
      ClassifyBasics(line, index);
    }
  }

  /** What is left to pull from `s`: nothing once EOF has been handed out. */
  function Remaining(s: State, f: LineClassifier): seq<Token> {
    if s.done then [] else Drain(s, f)
  }

  /** A pull moves one token from what is left to what was handed out;
      with a classifier that never answers EOF, that token is EOF exactly
      when the lexer has entered its terminal state. */
  lemma PullStep(s: State, f: LineClassifier)
    requires !s.done && NeverEof(f)
    ensures Remaining(s, f) == [Next(s, f).1] + Remaining(Next(s, f).0, f)
    ensures Next(s, f).1.kind == Eof <==> Next(s, f).0.done
  {
    DrainUnfold(s, f);
  }

  /** The tokens collected before an EOF that left nothing to pull are
      the whole stream but its final EOF, and none of them is EOF. */
  lemma CollectedAll(input: string, f: LineClassifier, tokens: seq<Token>, s: State, t: Token)
    requires NeverEof(f)
    requires tokens + [t] + Remaining(s, f) == Drain(New(input), f)
    requires s.done
    ensures tokens + [EofToken(|Lines(input)|)] == Drain(New(input), f)
    ensures forall i :: 0 <= i < |tokens| ==> tokens[i].kind != Eof
  {
    DrainFollowsLines(New(input), f);
    var ls := Lines(input);
    assert tokens + [t] == Stream(f, ls, 0);
    forall i | 0 <= i < |tokens| ensures tokens[i].kind != Eof {
      assert tokens[i] == (tokens + [t])[i] == Stream(f, ls, 0)[i];
      assert tokens[i] == f(ls[i], 0 + i);
    }
  }

  /** The test suite's loop: pulls until the first EOF and collects every
      token before it, which is the whole stream but its final EOF. */
  method Lex(input: string, f: LineClassifier) returns (tokens: seq<Token>)
    requires NeverEof(f)
    ensures tokens + [EofToken(|Lines(input)|)] == Drain(New(input), f)
    ensures forall i :: 0 <= i < |tokens| ==> tokens[i].kind != Eof
  {
    var s := New(input);
    PullStep(s, f);
    var t := Next(s, f).1;
    s := Next(s, f).0;
    tokens := [];
    while t.kind != Eof
      invariant tokens + [t] + Remaining(s, f) == Drain(New(input), f)
      invariant t.kind == Eof <==> s.done
      decreases |s.rest| + (if s.done then 0 else 1)
    {
      PullStep(s, f);
      Regroup(tokens, t, Next(s, f).1, Remaining(Next(s, f).0, f));
      tokens := tokens + [t];
      t := Next(s, f).1;
      s := Next(s, f).0;
    }
    CollectedAll(input, f, tokens, s, t);
  }

  /** Moving one token from the pending list to the collected ones. */
  lemma Regroup(a: seq<Token>, t: Token, u: Token, rest: seq<Token>)
    ensures a + [t] + ([u] + rest) == (a + [t]) + [u] + rest
  {
  }
}
