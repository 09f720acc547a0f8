/** Character-level helpers the lexer is built from: runs of spaces,
    trimming, prefix tests and joining. Only the space character counts as
    whitespace here. */
module Strings {

  /** `n` space characters, as `strings.Repeat(" ", n)` builds them. */
  function Spaces(n: nat): (s: string)
    ensures |s| == n
    ensures AllSpaces(s)
  {
    seq(n, _ => ' ')
  }

  /** True when every character of `s` is a space (the empty string included). */
  predicate AllSpaces(s: string) {
    forall i :: 0 <= i < |s| ==> s[i] == ' '
  }

  /** True when `s` neither starts nor ends with a space. */
  predicate Trimmed(s: string) {
    s == [] || (s[0] != ' ' && s[|s| - 1] != ' ')
  }

  /** True when `p` is a prefix of `s`. */
  predicate StartsWith(s: string, p: string) {
    |p| <= |s| && s[..|p|] == p
  }

  /** Number of space characters at the start of `s`. */
  function LeadingSpaces(s: string): (n: nat)
    ensures n <= |s|
  {
    if s == [] || s[0] != ' ' then 0 else 1 + LeadingSpaces(s[1..])
  }

  /** The leading-space count covers a run of spaces and stops at the
      first other character. */
  lemma {:induction false} LeadingRun(s: string)
    ensures AllSpaces(s[..LeadingSpaces(s)])
    ensures LeadingSpaces(s) < |s| ==> s[LeadingSpaces(s)] != ' '
  {
    if s != [] && s[0] == ' ' {
      LeadingRun(s[1..]);
      assert s[..LeadingSpaces(s)] == [' '] + s[1..][..LeadingSpaces(s[1..])];
    }
  }

  /** Number of space characters at the end of `s`. */
  function TrailingSpaces(s: string): (n: nat)
    ensures n <= |s|
  {
    if s == [] || s[|s| - 1] != ' ' then 0 else 1 + TrailingSpaces(s[..|s| - 1])
  }

  /** The trailing-space count covers a run of spaces and stops at the
      last other character. */
  lemma {:induction false} TrailingRun(s: string)
    ensures AllSpaces(s[|s| - TrailingSpaces(s)..])
    ensures TrailingSpaces(s) < |s| ==> s[|s| - TrailingSpaces(s) - 1] != ' '
  {
    if s != [] && s[|s| - 1] == ' ' {
      var p := s[..|s| - 1];
      TrailingRun(p);
      assert s[|s| - TrailingSpaces(s)..] == p[|p| - TrailingSpaces(p)..] + [' '];
    }
  }

  /** A string of spaces only is the run of spaces of its length. */
  lemma AllSpacesIsSpaces(s: string)
    requires AllSpaces(s)
    ensures s == Spaces(|s|)
  {
  }

  /** `s` without its leading and trailing spaces. */
  function Trim(s: string): (r: string)
    ensures Trimmed(r)
    ensures |r| <= |s|
  {
    var lead := LeadingSpaces(s);
    var rest := s[lead..];
    LeadingRun(s);
    TrailingRun(rest);
    rest[..|rest| - TrailingSpaces(rest)]
  }

  /** Every string is its trimmed content between two runs of spaces, the
      first of which is its leading-space count. */
  lemma TrimSplits(s: string)
    ensures s == Spaces(LeadingSpaces(s)) + Trim(s) + Spaces(|s| - LeadingSpaces(s) - |Trim(s)|)
  {
    var lead := LeadingSpaces(s);
    var rest := s[lead..];
    var t := TrailingSpaces(rest);
    var front, mid, back := s[..lead], s[lead..|s| - t], s[|s| - t..];
    assert Trim(s) == mid;
    assert s == front + mid + back;
    assert front == Spaces(lead) by {
      LeadingRun(s);
      AllSpacesIsSpaces(front);
    }
    assert back == Spaces(t) by {
      TrailingRun(rest);
      assert back == rest[|rest| - t..];
      AllSpacesIsSpaces(back);
    }
  }

  /** A string trims to nothing exactly when it is all spaces. */
  lemma TrimEmpty(s: string)
    ensures Trim(s) == [] <==> AllSpaces(s)
  {
    TrimSplits(s);
    if AllSpaces(s) {
      LeadingRun(s);
      assert LeadingSpaces(s) == |s|;
    }
  }

  /** In a trimmed string opened by a non-empty `p`, what follows `p` is
      its own leading spaces and then its trimmed content, with nothing
      after. */
  lemma TrimmedTail(p: string, rest: string)
    requires p != [] && Trimmed(p + rest)
    ensures rest == Spaces(LeadingSpaces(rest)) + Trim(rest)
  {
    TrimSplits(rest);
    var t := |rest| - LeadingSpaces(rest) - |Trim(rest)|;
    if rest != [] {
      assert rest[|rest| - 1] == (p + rest)[|p + rest| - 1];
    }
    assert t == 0;
    assert Spaces(LeadingSpaces(rest)) + Trim(rest) + Spaces(t) == Spaces(LeadingSpaces(rest)) + Trim(rest);
  }

  /** Trimming undoes any padding of a trimmed string. */
  lemma TrimPadded(a: nat, v: string, b: nat)
    requires Trimmed(v)
    ensures Trim(Spaces(a) + v + Spaces(b)) == v
  {
    var s := Spaces(a) + v + Spaces(b);
    if v == [] {
      assert s == Spaces(a + b);
      LeadingSpacesPadded(a + b, []);
    } else {
      var tail := v + Spaces(b);
      assert s == Spaces(a) + tail;
      LeadingSpacesPadded(a, tail);
      assert LeadingSpaces(tail) == 0 by { assert tail[0] == v[0]; }
      assert s[a..] == tail;
      TrailingSpacesPadded(v, b);
      assert TrailingSpaces(v) == 0;
      assert tail[..|v|] == v;
    }
  }

  /** Spaces put after a string add to its trailing-space count. */
  lemma {:induction false} TrailingSpacesPadded(v: string, b: nat)
    ensures TrailingSpaces(v + Spaces(b)) == b + TrailingSpaces(v)
  {
    if b > 0 {
      assert (v + Spaces(b))[..|v| + b - 1] == v + Spaces(b - 1);
      TrailingSpacesPadded(v, b - 1);
    } else {
      assert v + Spaces(b) == v;
    }
  }

  /** Spaces put in front of a string add to its leading-space count. */
  lemma {:induction false} LeadingSpacesPadded(a: nat, v: string)
    ensures LeadingSpaces(Spaces(a) + v) == a + LeadingSpaces(v)
  {
    if a > 0 {
      assert (Spaces(a) + v)[1..] == Spaces(a - 1) + v;
      LeadingSpacesPadded(a - 1, v);
    } else {
      assert Spaces(a) + v == v;
    }
  }

  /** The parts of `parts` separated by `sep`, as Go's `strings.Join`. */
  function Join(parts: seq<string>, sep: string): string
  {
    if parts == [] then []
    else if |parts| == 1 then parts[0]
    else parts[0] + sep + Join(parts[1..], sep)
  }

  /** Joining two non-empty lists is joining each and putting `sep` between. */
  lemma {:induction false} JoinAppend(a: seq<string>, b: seq<string>, sep: string)
    requires a != [] && b != []
    ensures Join(a + b, sep) == Join(a, sep) + sep + Join(b, sep)
  {
    if |a| == 1 {
      assert a + b == [a[0]] + b;
    } else {
      assert (a + b)[1..] == a[1..] + b;
      JoinAppend(a[1..], b, sep);
    }
  }

  /** Joining a list whose first part is itself a join of `a` is joining
      `a` and the rest together. */
  lemma JoinNested(a: seq<string>, rest: seq<string>, sep: string)
    requires a != [] && rest != []
    ensures Join([Join(a, sep)] + rest, sep) == Join(a + rest, sep)
  {
    assert ([Join(a, sep)] + rest)[1..] == rest;
    JoinAppend(a, rest, sep);
  }

  /** Spaces put before a join land in front of its first part. */
  lemma PadJoin(n: nat, a: seq<string>, sep: string)
    requires a != []
    ensures Spaces(n) + Join(a, sep) == Join([Spaces(n) + a[0]] + a[1..], sep)
  {
    if |a| > 1 {
      assert ([Spaces(n) + a[0]] + a[1..])[1..] == a[1..];
    }
  }
}
