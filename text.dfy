/** The string operations of Python 2 that the modules rely on:
    `str.split(sep)` with a one-character separator, `str.replace(c, "")`,
    and the line-by-line reading of a file with `readline`. */
module Text {

  /** Number of occurrences of `c` in `s`. */
  function Count(s: string, c: char): (n: nat)
    ensures n <= |s|
    ensures n == 0 <==> c !in s
  {
    if s == [] then 0 else (if s[0] == c then 1 else 0) + Count(s[1..], c)
  }

  /** `s.split(c)`: the pieces between the occurrences of `c`; there is always
      one more piece than there are separators, and no piece holds `c`. */
  function Split(s: string, c: char): (pieces: seq<string>)
    ensures |pieces| == Count(s, c) + 1
    ensures forall i :: 0 <= i < |pieces| ==> c !in pieces[i]
  {
    if s == [] then [""]
    else
      var rest := Split(s[1..], c);
      if s[0] == c then [""] + rest
      else [[s[0]] + rest[0]] + rest[1..]
  }

  /** `c.join(pieces)`. */
  function Join(pieces: seq<string>, c: char): string
    requires |pieces| > 0
  {
    if |pieces| == 1 then pieces[0] else pieces[0] + [c] + Join(pieces[1..], c)
  }

  /** Splitting loses nothing: joining the pieces back gives the string. */
  lemma {:induction false} JoinOfSplit(s: string, c: char)
    ensures Join(Split(s, c), c) == s
  {
    if s != [] {
      var rest := Split(s[1..], c);
      JoinOfSplit(s[1..], c);
      if s[0] == c {
        JoinEmptyFirst(rest, c);
      } else {
        JoinExtendFirst(s[0], rest, c);
      }
      assert s == [s[0]] + s[1..];
    }
  }

  /** An empty first piece contributes only its separator. */
  lemma JoinEmptyFirst(pieces: seq<string>, c: char)
    requires |pieces| > 0
    ensures Join([""] + pieces, c) == [c] + Join(pieces, c)
  {
    assert ([""] + pieces)[1..] == pieces;
  }

  /** A character put in front of the first piece comes first in the join. */
  lemma JoinExtendFirst(x: char, pieces: seq<string>, c: char)
    requires |pieces| > 0
    ensures Join([[x] + pieces[0]] + pieces[1..], c) == [x] + Join(pieces, c)
  {
    var ps := [[x] + pieces[0]] + pieces[1..];
    if |pieces| > 1 {
      assert ps[1..] == pieces[1..];
    }
  }

  /** A piece free of the separator is split off whole. */
  lemma {:induction false} SplitAfterPiece(a: string, b: string, c: char)
    requires c !in a
    ensures Split(a + [c] + b, c) == [a] + Split(b, c)
  {
    var s := a + [c] + b;
    if a == [] {
      assert s == [c] + b && s[1..] == b;
    } else {
      var a' := a[1..];
      assert s[0] == a[0] && s[0] != c;
      assert s[1..] == a' + [c] + b;
      SplitAfterPiece(a', b, c);
      var rest := Split(s[1..], c);
      assert rest == [a'] + Split(b, c);
      assert Split(s, c) == [[a[0]] + rest[0]] + rest[1..];
      assert [a[0]] + a' == a;
      assert rest[1..] == Split(b, c);
    }
  }

  /** Splitting and joining are inverse: pieces free of the separator come back
      unchanged. */
  lemma {:induction false} SplitOfJoin(pieces: seq<string>, c: char)
    requires |pieces| > 0
    requires forall i :: 0 <= i < |pieces| ==> c !in pieces[i]
    ensures Split(Join(pieces, c), c) == pieces
  {
    if |pieces| == 1 {
      SplitNoSeparator(pieces[0], c);
    } else {
      SplitOfJoin(pieces[1..], c);
      SplitAfterPiece(pieces[0], Join(pieces[1..], c), c);
      assert pieces == [pieces[0]] + pieces[1..];
    }
  }

  /** A string without the separator splits into itself. */
  lemma {:induction false} SplitNoSeparator(s: string, c: char)
    requires c !in s
    ensures Split(s, c) == [s]
  {
    if s != [] {
      SplitNoSeparator(s[1..], c);
      assert s == [s[0]] + s[1..];
    }
  }

  /** `s.replace(c, "")`: `s` with every `c` removed and the rest kept in order. */
  function Remove(s: string, c: char): (r: string)
    ensures c !in r
    ensures |r| == |s| - Count(s, c)
    ensures forall x :: x != c ==> (x in r <==> x in s)
  {
    if s == [] then []
    else if s[0] == c then Remove(s[1..], c)
    else [s[0]] + Remove(s[1..], c)
  }

  /** `s.replace(c, "")` is `"".join(s.split(c))`: removal keeps every other
      character, in order and as often as it occurs. */
  lemma {:induction false} RemoveIsConcatOfSplit(s: string, c: char)
    ensures Remove(s, c) == Concat(Split(s, c))
  {
    if s != [] {
      RemoveIsConcatOfSplit(s[1..], c);
      var rest := Split(s[1..], c);
      if s[0] == c {
        assert ([""] + rest)[1..] == rest;
      } else {
        var pieces := [[s[0]] + rest[0]] + rest[1..];
        assert pieces[1..] == rest[1..];
        assert Concat(rest) == rest[0] + Concat(rest[1..]);
      }
    }
  }

  /** Removing a character that is absent changes nothing. */
  lemma {:induction false} RemoveAbsent(s: string, c: char)
    requires c !in s
    ensures Remove(s, c) == s
  {
    if s != [] {
      RemoveAbsent(s[1..], c);
      assert s == [s[0]] + s[1..];
    }
  }

  /** Length of the first line of `s`, its terminating newline included. */
  function FirstLineLength(s: string): (n: nat)
    requires s != []
    ensures 0 < n <= |s|
    ensures '\n' !in s[..n - 1]
    ensures n < |s| ==> s[n - 1] == '\n'
  {
    if s[0] == '\n' || |s| == 1 then 1
    else
      var n := 1 + FirstLineLength(s[1..]);
      assert s[..n - 1] == [s[0]] + s[1..][..n - 2];
      n
  }

  /** A line as `readline` returns it: not empty, a newline only at its end. */
  ghost predicate IsLine(line: string)
  {
    line != [] && '\n' !in line[..|line| - 1]
  }

  /** The lines `iter(fp.readline, '')` yields for a file holding `s`: each
      keeps its newline, the last one may lack it, and nothing is lost. */
  function ReadLines(s: string): (lines: seq<string>)
    ensures Concat(lines) == s
    ensures forall i :: 0 <= i < |lines| ==> IsLine(lines[i])
    ensures forall i :: 0 <= i < |lines| - 1 ==> lines[i] != [] && lines[i][|lines[i]| - 1] == '\n'
    decreases |s|
  {
    if s == [] then []
    else
      var n := FirstLineLength(s);
      var rest := ReadLines(s[n..]);
      assert s == s[..n] + s[n..];
      [s[..n]] + rest
  }

  /** The lines put back together. */
  function Concat(lines: seq<string>): string
  {
    if lines == [] then [] else lines[0] + Concat(lines[1..])
  }

  /** Reading back lines that each end in their only newline gives those
      lines. */
  lemma {:induction false} ReadLinesOfConcat(lines: seq<string>)
    requires forall i :: 0 <= i < |lines| ==> IsLine(lines[i]) && lines[i][|lines[i]| - 1] == '\n'
    ensures ReadLines(Concat(lines)) == lines
  {
    if lines != [] {
      var s := Concat(lines);
      var l := lines[0];
      assert s == l + Concat(lines[1..]);
      var n := FirstLineLength(s);
      assert s[..|l|] == l;
      assert n == |l|;
      assert s[n..] == Concat(lines[1..]);
      ReadLinesOfConcat(lines[1..]);
    }
  }
}
