/** Glob compilation and matching (internal/filter/filter.go). */
module Glob {
  import opened Options
  import opened Regex
  import opened Sequences

  /** Characters globToRegex writes with a backslash. */
  predicate Escaped(c: char) {
    c in ".+()|^${}\\"
  }

  /** Position of the first ']' at or after i, or the length of g. */
  function ClassEnd(g: string, i: nat): (j: nat)
    requires i <= |g|
    ensures i <= j <= |g|
    decreases |g| - i
  {
    if i == |g| || g[i] == ']' then i else ClassEnd(g, i + 1)
  }

  /** It is the first ']' from i on, if there is one. */
  lemma {:induction false} ClassEndFirst(g: string, i: nat)
    requires i <= |g|
    ensures var j := ClassEnd(g, i);
            && (j < |g| ==> g[j] == ']')
            && (forall k :: i <= k < j ==> g[k] != ']')
    decreases |g| - i
  {
    if i < |g| && g[i] != ']' { ClassEndFirst(g, i + 1); }
  }

  /** What one turn of the scan writes, and how much of the glob it consumes. */
  datatype Piece = Piece(text: string, length: nat)

  function Head(g: string): (r: Piece)
    requires g != ""
    ensures 0 < r.length <= |g|
  {
    if g[0] == '*' then
      if |g| > 1 && g[1] == '*' then
        if |g| > 2 && g[2] == '/' then Piece("(?:.*/)?", 3) else Piece(".*", 2)
      else Piece("[^/]*", 1)
    else if g[0] == '?' then Piece("[^/]", 1)
    else if Escaped(g[0]) then Piece(['\\', g[0]], 1)
    else if g[0] == '[' then
      var j := ClassEnd(g, 1);
      if j == |g| then Piece("\\[", 1) else Piece(g[..j + 1], j + 1)
    else Piece([g[0]], 1)
  }

  /** The regex text for a glob, without the anchors. */
  function Emit(g: string): string {
    if g == "" then "" else Head(g).text + Emit(g[Head(g).length..])
  }

  /** A bracket class stands at the front. */
  predicate HasClass(g: string) {
    g != "" && g[0] == '[' && ClassEnd(g, 1) < |g|
  }

  function ClassText(g: string): string
    requires HasClass(g)
  {
    g[..ClassEnd(g, 1) + 1]
  }

  /** The class, as Go reads it by itself, holds the character. */
  predicate InBrackets(text: string, c: char)
    requires text != ""
  {
    ParseAtom(text).Parsed? && Matches(ParseAtom(text).re, [c])
  }

  /**
   * The paths a glob stands for: `*` and `?` stay inside one segment, `**` stays inside one
   * line, `**` with a slash is zero or more leading segments, and a class is any one of its
   * characters.
   */
  predicate InGlob(g: string, s: string)
    decreases |g|
  {
    if g == "" then s == ""
    else if g[0] == '*' then
      if |g| > 1 && g[1] == '*' then
        if |g| > 2 && g[2] == '/' then
          exists i :: 0 <= i <= |s| && LeadingSegments(s[..i]) && OneLine(s[..i]) && InGlob(g[3..], s[i..])
        else exists i :: 0 <= i <= |s| && OneLine(s[..i]) && InGlob(g[2..], s[i..])
      else exists i :: 0 <= i <= |s| && '/' !in s[..i] && InGlob(g[1..], s[i..])
    else if g[0] == '?' then s != "" && s[0] != '/' && InGlob(g[1..], s[1..])
    else if HasClass(g) then
      s != "" && InBrackets(ClassText(g), s[0]) && InGlob(g[|ClassText(g)|..], s[1..])
    else s != "" && s[0] == g[0] && InGlob(g[1..], s[1..])
  }

  predicate LeadingSegments(u: string) {
    u == "" || u[|u| - 1] == '/'
  }

  predicate OneLine(u: string) {
    '\n' !in u
  }

  /** No bracket class: no '[' with a ']' somewhere after it. */
  ghost predicate ClassFree(g: string) {
    forall i, j :: 0 <= i < j < |g| && g[i] == '[' ==> g[j] != ']'
  }

  /** What stands between the brackets is a class by itself, and no named one. */
  ghost predicate ProperClass(content: string) {
    && (forall i :: 0 <= i < |content| ==> content[i] != '[' && content[i] != ']' && content[i] != '\\')
    && ParseAtom("[" + content + "]").Parsed?
  }

  /** Every class of the glob is proper. */
  ghost predicate Proper(g: string)
    decreases |g|
  {
    g == "" || ((HasClass(g) ==> ProperClass(g[1..ClassEnd(g, 1)])) && Proper(g[Head(g).length..]))
  }

  /** b is what the first i characters of the glob emit. */
  ghost predicate Written(glob: string, b: string, i: nat) {
    i <= |glob| && b + Emit(glob[i..]) == Emit(glob)
  }

  lemma WrittenNext(glob: string, b: string, i: nat, piece: Piece)
    requires Written(glob, b, i) && i < |glob| && piece == Head(glob[i..])
    ensures Written(glob, b + piece.text, i + piece.length) && piece.length > 0
  {
    assert glob[i..][piece.length..] == glob[i + piece.length..];
    Assoc(b, piece.text, Emit(glob[i + piece.length..]));
  }

  lemma WrittenNone(glob: string)
    ensures Written(glob, "", 0)
  {
    assert glob[0..] == glob;
  }

  lemma WrittenAll(glob: string, b: string, i: nat)
    requires Written(glob, b, i) && i == |glob|
    ensures b == Emit(glob)
  {
    assert glob[i..] == "";
  }

  method GlobToRegex(glob: string) returns (r: string)
    ensures r == "^" + Emit(glob) + "$"
  {
    var b := ScanGlob(glob);
    r := "^" + b + "$";
  }

  /** The scan between the two anchors. */
  method ScanGlob(glob: string) returns (b: string)
    ensures b == Emit(glob)
  {
    b := "";
    var i: nat := 0;
    WrittenNone(glob);
    while i < |glob|
      invariant Written(glob, b, i)
    {
      b, i := WritePiece(glob, b, i);
    }
    WrittenAll(glob, b, i);
  }

  /** One turn of the scan: what it appends and where it leaves the index. */
  method WritePiece(glob: string, b: string, i: nat) returns (b': string, i': nat)
    requires Written(glob, b, i) && i < |glob|
    ensures Written(glob, b', i') && i' > i
  {
    var piece := NextPiece(glob, i);
    WrittenNext(glob, b, i, piece);
    b' := b + piece.text;
    i' := i + piece.length;
  }

  /** One case of the scan's switch. */
  method NextPiece(glob: string, i: nat) returns (piece: Piece)
    requires i < |glob|
    ensures piece == Head(glob[i..])
  {
    if glob[i] == '*' {
      if i + 1 < |glob| && glob[i + 1] == '*' {
        if i + 2 < |glob| && glob[i + 2] == '/' {
          return Piece("(?:.*/)?", 3);
        }
        return Piece(".*", 2);
      }
      return Piece("[^/]*", 1);
    } else if glob[i] == '?' {
      return Piece("[^/]", 1);
    } else if Escaped(glob[i]) {
      return Piece(['\\', glob[i]], 1);
    } else if glob[i] == '[' {
      var j := FindClose(glob, i + 1);
      ClassEndShift(glob, i, 1);
      if j >= |glob| {
        return Piece("\\[", 1);
      }
      assert glob[i..][..j + 1 - i] == glob[i..j + 1];
      return Piece(glob[i..j + 1], j + 1 - i);
    }
    return Piece([glob[i]], 1);
  }

  /** The inner scan for the end of a class. */
  method FindClose(glob: string, start: nat) returns (j: nat)
    requires start <= |glob|
    ensures j == ClassEnd(glob, start)
  {
    j := start;
    while j < |glob| && glob[j] != ']'
      invariant start <= j <= |glob| && ClassEnd(glob, start) == ClassEnd(glob, j)
    {
      j := j + 1;
    }
  }

  lemma {:induction false} ClassEndShift(g: string, i: nat, k: nat)
    requires i <= |g| && k <= |g| - i
    ensures ClassEnd(g[i..], k) + i == ClassEnd(g, i + k)
    decreases |g| - i - k
  {
    if k < |g| - i && g[i + k] != ']' { ClassEndShift(g, i, k + 1); }
  }

  // --- normalization ---

  /** Unicode white space, as strings.TrimSpace knows it. */
  predicate IsSpace(c: char) {
    || '\t' <= c <= '\r' || c == ' ' || 0x2000 <= c as int <= 0x200A
    || c as int in {0x85, 0xA0, 0x1680, 0x2028, 0x2029, 0x202F, 0x205F, 0x3000}
  }

  function TrimSpace(s: string): string {
    if s != "" && IsSpace(s[0]) then TrimSpace(s[1..])
    else if s != "" && IsSpace(s[|s| - 1]) then TrimSpace(s[..|s| - 1])
    else s
  }

  function TrimPrefix(s: string, prefix: string): string {
    if prefix <= s then s[|prefix|..] else s
  }

  function ToSlashes(s: string): (t: string)
    ensures |t| == |s|
  {
    seq(|s|, i requires 0 <= i < |s| => if s[i] == '\\' then '/' else s[i])
  }

  predicate AtDouble(s: string) {
    |s| > 1 && s[0] == '/' && s[1] == '/'
  }

  /** The text contains two slashes in a row. */
  predicate DoubleSlash(s: string) {
    s != "" && (AtDouble(s) || DoubleSlash(s[1..]))
  }

  /** One pass of ReplaceAll: every two slashes, from the left, become one. */
  function Halved(s: string): (t: string)
    ensures |t| <= |s|
    ensures s != "" ==> t != "" && t[0] == s[0]
  {
    if s == "" then ""
    else if AtDouble(s) then "/" + Halved(s[2..])
    else [s[0]] + Halved(s[1..])
  }

  /** Every run of slashes as one slash. */
  function Squeezed(s: string): (t: string)
    ensures s != "" ==> t != "" && t[0] == s[0]
  {
    if s == "" then ""
    else if AtDouble(s) then Squeezed(s[1..])
    else [s[0]] + Squeezed(s[1..])
  }

  function Normalized(p: string): string {
    Squeezed(TrimPrefix(TrimPrefix(ToSlashes(TrimSpace(p)), "./"), "/"))
  }

  lemma SqueezedCons(c: char, s: string)
    ensures Squeezed([c] + s) == if c == '/' && s != "" && s[0] == '/' then Squeezed(s) else [c] + Squeezed(s)
  {
    assert ([c] + s)[1..] == s;
  }

  /** A pass does not change what the runs of slashes come to. */
  lemma {:induction false} HalvedSqueezes(s: string)
    ensures Squeezed(Halved(s)) == Squeezed(s)
    decreases |s|
  {
    if AtDouble(s) {
      HalvedSqueezes(s[2..]);
      SqueezedCons('/', Halved(s[2..]));
      SqueezedCons('/', s[2..]);
      assert s[1..] == "/" + s[2..];
    } else if s != "" {
      HalvedSqueezes(s[1..]);
      SqueezedCons(s[0], Halved(s[1..]));
    }
  }

  lemma {:induction false} SqueezedSame(s: string)
    requires !DoubleSlash(s)
    ensures Squeezed(s) == s
  {
    if s != "" { SqueezedSame(s[1..]); }
  }

  /** A pass over a double slash shortens the text. */
  lemma {:induction false} HalvedShorter(s: string)
    requires DoubleSlash(s)
    ensures |Halved(s)| < |s|
  {
    if !AtDouble(s) { HalvedShorter(s[1..]); }
  }

  method Normalize(raw: string) returns (p: string)
    ensures p == Normalized(raw) && !DoubleSlash(p)
  {
    p := TrimPrefix(TrimPrefix(ToSlashes(TrimSpace(raw)), "./"), "/");
    while DoubleSlash(p)
      invariant Squeezed(p) == Normalized(raw)
      decreases |p|
    {
      HalvedSqueezes(p);
      HalvedShorter(p);
      p := Halved(p);
    }
    SqueezedSame(p);
  }

  // --- compiled patterns ---

  /** A compiled pattern: without a slash it is held against the file name only. */
  datatype Matcher = Matcher(hasSlash: bool, re: Re)

  /** The path without trailing slashes. */
  function Bare(rel: string): string {
    if rel != "" && rel[|rel| - 1] == '/' then Bare(rel[..|rel| - 1]) else rel
  }

  function LastSegment(rel: string): string {
    if rel == "" then ""
    else if '/' in rel then LastSegment(rel[1..])
    else rel
  }

  /** The last element of a path, as path.Base gives it. */
  function Base(rel: string): string {
    if rel == "" then "."
    else
      var name := LastSegment(Bare(rel));
      if name == "" then "/" else name
  }

  predicate Hits(m: Matcher, rel: string) {
    Matches(m.re, if m.hasSlash then rel else Base(rel))
  }

  function CompiledOf(pattern: string): Option<Matcher> {
    var g := Normalized(pattern);
    if g == "" then None
    else
      match ParseAnchored("^" + Emit(g) + "$")
      case Parsed(re, _) => Some(Matcher('/' in g, re))
      case Bad => None
  }

  /** None where the original returns an error. */
  method Compile(pattern: string) returns (m: Option<Matcher>)
    ensures m == CompiledOf(pattern)
  {
    var g := Normalize(pattern);
    if g == "" { return None; }
    var text := GlobToRegex(g);
    var parsed := ParseAnchored(text);
    if parsed.Bad? { return None; }
    m := Some(Matcher('/' in g, parsed.re));
  }

  // --- filters ---

  datatype Rule = Rule(allow: bool, matcher: Matcher)

  datatype Filter = Filter(rules: seq<Rule>, wanted: seq<Matcher>, unwanted: seq<Matcher>)

  /** Rule i matches and none of the rules from i + 1 up to n does. */
  predicate LastMatch(rules: seq<Rule>, rel: string, n: nat, i: nat)
    requires n <= |rules|
  {
    i < n && Hits(rules[i].matcher, rel) && forall j :: i < j < n ==> !Hits(rules[j].matcher, rel)
  }

  predicate AnyHits(patterns: seq<Matcher>, rel: string) {
    exists i :: 0 <= i < |patterns| && Hits(patterns[i], rel)
  }

  /** What the filter says of a normalized path: the last matching rule wins; without rules, the two lists decide. */
  ghost predicate Verdict(m: Filter, rel: string, allowed: bool) {
    if rel == "." then allowed
    else if m.rules != [] then
      && ((forall i :: 0 <= i < |m.rules| ==> !Hits(m.rules[i].matcher, rel)) ==> allowed)
      && forall i: nat :: LastMatch(m.rules, rel, |m.rules|, i) ==> allowed == m.rules[i].allow
    else allowed <==> (m.wanted == [] || AnyHits(m.wanted, rel)) && !AnyHits(m.unwanted, rel)
  }

  method Match(m: Filter, raw: string) returns (allowed: bool)
    ensures Verdict(m, Normalized(raw), allowed)
  {
    var rel := Normalize(raw);
    if rel == "." { return true; }
    if |m.rules| > 0 {
      allowed := LastRule(m.rules, rel);
      return;
    }
    if |m.wanted| > 0 {
      var matched := AnyMatches(m.wanted, rel);
      if !matched { return false; }
    }
    var rejected := AnyMatches(m.unwanted, rel);
    return !rejected;
  }

  /** The loop over the rules, each overriding the ones before. */
  method LastRule(rules: seq<Rule>, rel: string) returns (allowed: bool)
    ensures (forall i :: 0 <= i < |rules| ==> !Hits(rules[i].matcher, rel)) ==> allowed
    ensures forall i: nat :: LastMatch(rules, rel, |rules|, i) ==> allowed == rules[i].allow
  {
    allowed := true;
    for k := 0 to |rules|
      invariant (forall i :: 0 <= i < k ==> !Hits(rules[i].matcher, rel)) ==> allowed
      invariant forall i: nat :: LastMatch(rules, rel, k, i) ==> allowed == rules[i].allow
    {
      if Hits(rules[k].matcher, rel) {
        allowed := rules[k].allow;
      }
    }
  }

  method AnyMatches(patterns: seq<Matcher>, rel: string) returns (hit: bool)
    ensures hit <==> AnyHits(patterns, rel)
  {
    for k := 0 to |patterns|
      invariant forall i :: 0 <= i < k ==> !Hits(patterns[i], rel)
    {
      if Hits(patterns[k], rel) { return true; }
    }
    return false;
  }
}
