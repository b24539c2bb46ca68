/** Line splitting (internal/merge/merge.go, splitLines). */
module Lines {

  type Line = string

  /** A line is nonempty and holds a newline at its end or nowhere. */
  ghost predicate IsLine(l: Line) {
    |l| > 0 && forall i :: 0 <= i < |l| - 1 ==> l[i] != '\n'
  }

  predicate Ended(l: Line) {
    |l| > 0 && l[|l| - 1] == '\n'
  }

  /** The shape of a split text: only the last line may lack its newline. */
  ghost predicate WellFormed(ls: seq<Line>) {
    && (forall i :: 0 <= i < |ls| ==> IsLine(ls[i]))
    && (forall i :: 0 <= i < |ls| - 1 ==> Ended(ls[i]))
  }

  ghost predicate AllEnded(ls: seq<Line>) {
    forall i :: 0 <= i < |ls| ==> Ended(ls[i])
  }

  function Join(ls: seq<Line>): string {
    if ls == [] then "" else ls[0] + Join(ls[1..])
  }

  /** The first k characters of s are its first line. */
  ghost predicate IsFirstLine(s: string, k: nat) {
    && 0 < k <= |s|
    && (forall i :: 0 <= i < k - 1 ==> s[i] != '\n')
    && (k == |s| || s[k - 1] == '\n')
  }

  /** Length of the first line: up to and including the first newline. */
  function FirstLine(s: string): (k: nat)
    requires s != ""
    ensures IsFirstLine(s, k)
  {
    if s[0] == '\n' || |s| == 1 then 1 else FirstLine(s[1..]) + 1
  }

  function LinesOf(s: string): seq<Line> {
    if s == "" then [] else
      var k := FirstLine(s);
      [s[..k]] + LinesOf(s[k..])
  }

  lemma {:induction false} JoinConcat(x: seq<Line>, y: seq<Line>)
    ensures Join(x + y) == Join(x) + Join(y)
  {
    if x == [] {
      assert x + y == y;
    } else {
      assert (x + y)[1..] == x[1..] + y;
      JoinConcat(x[1..], y);
    }
  }

  lemma WellFormedCons(line: Line, rest: seq<Line>)
    requires IsLine(line) && WellFormed(rest) && (rest != [] ==> Ended(line))
    ensures WellFormed([line] + rest)
  {
  }

  lemma FirstLineIsLine(s: string)
    requires s != ""
    ensures var line := s[..FirstLine(s)]; IsLine(line) && (s[FirstLine(s)..] != "" ==> Ended(line))
  {
  }

  /** Splitting loses nothing and always yields well-formed lines. */
  lemma {:induction false} SplitJoins(s: string)
    ensures Join(LinesOf(s)) == s && WellFormed(LinesOf(s))
  {
    if s != "" {
      var k := FirstLine(s);
      var line, rest := s[..k], s[k..];
      assert s == line + rest;
      SplitJoins(rest);
      FirstLineIsLine(s);
      WellFormedCons(line, LinesOf(rest));
      JoinCons(line, LinesOf(rest));
    }
  }

  lemma JoinCons(line: Line, rest: seq<Line>)
    ensures Join([line] + rest) == line + Join(rest)
  {
    assert ([line] + rest)[1..] == rest;
  }

  /** Well-formed lines are recovered exactly: joining glues no two of them. */
  lemma {:induction false} JoinSplits(ls: seq<Line>)
    requires WellFormed(ls)
    ensures LinesOf(Join(ls)) == ls
  {
    if ls != [] {
      JoinSplits(ls[1..]);
      var s := Join(ls);
      var k := |ls[0]|;
      assert s[..k] == ls[0] && s[k..] == Join(ls[1..]);
      if |ls| == 1 { assert Join(ls[1..]) == ""; }
      assert IsFirstLine(s, k);
    }
  }

  method SplitLines(s: string) returns (lines: seq<Line>)
    ensures lines == LinesOf(s)
    ensures Join(lines) == s && WellFormed(lines)
  {
    lines := ScanLines(s);
    SplitJoins(s);
  }

  /** lines are the text up to start, cut into lines. */
  ghost predicate Scanned(s: string, lines: seq<Line>, start: nat) {
    start <= |s| && Join(lines) == s[..start] && WellFormed(lines) && (start < |s| ==> AllEnded(lines))
  }

  /** s[start..end] is a line of s: no newline inside it, and a newline or the end of the text after it. */
  ghost predicate LineAt(s: string, start: nat, end: nat) {
    && start < end <= |s|
    && (forall k :: start <= k < end - 1 ==> s[k] != '\n')
    && (end == |s| || s[end - 1] == '\n')
  }

  lemma ScannedNext(s: string, lines: seq<Line>, start: nat, end: nat)
    requires Scanned(s, lines, start) && LineAt(s, start, end)
    ensures Scanned(s, lines + [s[start..end]], end)
  {
    var line := s[start..end];
    assert s[..end] == s[..start] + line;
    JoinConcat(lines, [line]);
    JoinCons(line, []);
    assert [line] + [] == [line];
  }

  lemma ScannedAll(s: string, lines: seq<Line>, start: nat)
    requires Scanned(s, lines, start) && start == |s|
    ensures lines == LinesOf(s)
  {
    assert s[..start] == s;
    JoinSplits(lines);
  }

  lemma ScannedNone(s: string)
    ensures Scanned(s, [], 0)
  {
  }

  method ScanLines(s: string) returns (lines: seq<Line>)
    ensures lines == LinesOf(s)
  {
    if s == "" {
      return [];
    }
    lines := [];
    var start := 0;
    ScannedNone(s);
    for i := 0 to |s|
      invariant start <= i && Scanned(s, lines, start)
      invariant forall k :: start <= k < i ==> s[k] != '\n'
    {
      if s[i] == '\n' {
        ScannedNext(s, lines, start, i + 1);
        lines := lines + [s[start..i + 1]];
        start := i + 1;
      }
    }
    if start < |s| {
      ScannedNext(s, lines, start, |s|);
      lines, start := lines + [s[start..|s|]], |s|;
    }
    ScannedAll(s, lines, start);
  }
}
