/** The line reader: cuts the input into physical lines at each `'\n'`,
    as a buffered reader that reads up to and including the next newline
    does. A newline that ends the input does not open a further, empty
    line. */
module LineReader {
  import opened Strings

  /** Result of one read: the input is used up, or one line (without its
      newline) and the input after it. */
  datatype Read = Exhausted | Line(text: string, rest: string)

  /** Position of the first newline in `s`, or `|s|` when there is none. */
  function LineEnd(s: string): (i: nat)
    ensures i <= |s|
    ensures '\n' !in s[..i]
    ensures i < |s| ==> s[i] == '\n'
  {
    if s == [] || s[0] == '\n' then 0
    else
      var j := LineEnd(s[1..]);
      assert s[..1 + j] == [s[0]] + s[1..][..j];
      1 + j
  }

  /** Reads one line off the front of `s`. */
  function ReadLine(s: string): (r: Read)
    ensures r.Exhausted? <==> s == []
    ensures r.Line? ==> '\n' !in r.text && |r.rest| < |s|
    ensures r.Line? ==> s == r.text + "\n" + r.rest || (s == r.text && r.rest == [])
  {
    if s == [] then Exhausted
    else
      var i := LineEnd(s);
      if i == |s| then Line(s, [])
      else
        assert s == s[..i] + "\n" + s[i + 1..];
        Line(s[..i], s[i + 1..])
  }

  /** True when no line of `ls` holds a newline. */
  predicate NoNewlines(ls: seq<string>) {
    forall i :: 0 <= i < |ls| ==> '\n' !in ls[i]
  }

  /** Every physical line of `s`, in order. */
  function Lines(s: string): (ls: seq<string>)
    ensures NoNewlines(ls)
    decreases |s|
  {
    match ReadLine(s)
    case Exhausted => []
    case Line(text, rest) => [text] + Lines(rest)
  }

  /** Each line followed by its newline: the input a list of lines comes from. */
  function Terminated(ls: seq<string>): string {
    if ls == [] then [] else ls[0] + "\n" + Terminated(ls[1..])
  }

  /** Cutting newline-terminated lines gives the same lines back. */
  lemma {:induction false} LinesOfTerminated(ls: seq<string>)
    requires NoNewlines(ls)
    ensures Lines(Terminated(ls)) == ls
  {
    if ls != [] {
      var s := Terminated(ls);
      assert s == ls[0] + "\n" + Terminated(ls[1..]);
      ReadLineSplit(ls[0], Terminated(ls[1..]));
      LinesOfTerminated(ls[1..]);
    }
  }

  /** The lines of an input, each put back with its newline, rebuild the
      input, with one newline added when the input did not end in one. */
  lemma {:induction false} TerminatedOfLines(s: string)
    ensures Terminated(Lines(s)) == if s == [] || s[|s| - 1] == '\n' then s else s + "\n"
    decreases |s|
  {
    if s != [] {
      var i := LineEnd(s);
      if i == |s| {
        assert ReadLine(s) == Line(s, []);
        assert Lines(s) == [s];
        assert s[|s| - 1] in s[..i];
      } else {
        var text, rest := s[..i], s[i + 1..];
        assert s == text + "\n" + rest;
        assert Lines(s) == [text] + Lines(rest) by {
          assert ReadLine(s) == Line(text, rest);
        }
        TerminatedCons(text, Lines(rest));
        TerminatedOfLines(rest);
        if rest != [] && rest[|rest| - 1] != '\n' {
          assert s[|s| - 1] == rest[|rest| - 1];
          assert text + "\n" + (rest + "\n") == s + "\n";
        } else if rest != [] {
          assert s[|s| - 1] == rest[|rest| - 1];
        }
      }
    }
  }

  /** Terminating a list that starts with `l` writes `l` and its newline first. */
  lemma TerminatedCons(l: string, ls: seq<string>)
    ensures Terminated([l] + ls) == l + "\n" + Terminated(ls)
  {
    assert ([l] + ls)[1..] == ls;
  }

  /** A line followed by a newline reads back as that line. */
  lemma ReadLineSplit(text: string, rest: string)
    requires '\n' !in text
    ensures ReadLine(text + "\n" + rest) == Line(text, rest)
  {
    var s := text + "\n" + rest;
    LineEndAt(text, rest);
    assert s[..|text|] == text;
    assert s[|text| + 1..] == rest;
  }

  /** The first newline of `text + "\n" + rest` is the one after `text`. */
  lemma {:induction false} LineEndAt(text: string, rest: string)
    requires '\n' !in text
    ensures LineEnd(text + "\n" + rest) == |text|
  {
    if text != [] {
      assert (text + "\n" + rest)[1..] == text[1..] + "\n" + rest;
      assert text[0] in text;
      LineEndAt(text[1..], rest);
    }
  }

  /** The lines joined with `"\n"` between them read back as those lines,
      provided the last one is not empty. */
  lemma {:induction false} LinesOfJoin(ls: seq<string>)
    requires ls != [] && ls[|ls| - 1] != []
    requires NoNewlines(ls)
    ensures Lines(Join(ls, "\n")) == ls
  {
    if |ls| == 1 {
      var s := ls[0];
      assert Join(ls, "\n") == s;
      assert Lines(s) == [s] + Lines([]);
    } else {
      assert Join(ls, "\n") == ls[0] + "\n" + Join(ls[1..], "\n");
      ReadLineSplit(ls[0], Join(ls[1..], "\n"));
      LinesOfJoin(ls[1..]);
    }
  }
}
