/** The compiled text means what the glob means (internal/filter/filter.go, globToRegex). */
module GlobLaws {
  import opened Regex
  import opened Glob

  /** The expression a glob with proper classes compiles to. */
  function ReOf(g: string): Re
    decreases |g|
  {
    if g == "" then Eps
    else Cat(HeadRe(g), ReOf(g[Head(g).length..]))
  }

  const NOT_SLASH: Re := Class(true, [Item(false, [('/', '/')])])

  const SEGMENTS: Re := Opt(Cat(Star(AnyChar), Cat(Lit('/'), Eps)))

  function HeadRe(g: string): Re
    requires g != ""
  {
    if g[0] == '*' then
      if |g| > 1 && g[1] == '*' then
        if |g| > 2 && g[2] == '/' then SEGMENTS else Star(AnyChar)
      else Star(NOT_SLASH)
    else if g[0] == '?' then NOT_SLASH
    else if HasClass(g) then
      if ParseAtom(ClassText(g)).Parsed? then ParseAtom(ClassText(g)).re else Eps
    else Lit(g[0])
  }

  // --- classes ---

  lemma TailClassFree(g: string, n: nat)
    requires ClassFree(g) && n <= |g|
    ensures ClassFree(g[n..])
  {
  }

  lemma {:induction false} ClassFreeProper(g: string)
    requires ClassFree(g)
    ensures Proper(g)
    decreases |g|
  {
    if g != "" {
      ClassEndFirst(g, 1);
      ClassFreeProper(g[Head(g).length..]);
    }
  }

  ghost predicate PlainContent(content: string) {
    forall i :: 0 <= i < |content| ==> content[i] != '[' && content[i] != ']' && content[i] != '\\'
  }

  /** The front of a class is the same range whatever follows the class. */
  lemma RangeLocal(content: string, rest: string)
    requires PlainContent(content) && content != ""
    ensures var t, u := content + "]" + rest, content + "]";
            && RangeLength(t) == RangeLength(u) && RangeLength(u) <= |content|
            && NameEnd(t) == |t| && NameEnd(u) == |u|
            && (RangeLength(u) > 0 ==> RangeItem(t) == RangeItem(u))
  {
    var t, u := content + "]" + rest, content + "]";
    assert t[0] == content[0] && u[0] == content[0];
    if |content| > 1 { assert t[1] == content[1] && u[1] == content[1]; }
    if |content| > 2 { assert t[2] == content[2] && u[2] == content[2]; }
    assert t[|content|] == ']' && u[|content|] == ']';
    if Dashed(u) { assert t[2..][0] == t[2] && u[2..][0] == u[2]; }
  }

  /** A class ends at its bracket whatever follows it. */
  lemma {:induction false} ItemsLocal(content: string, first: bool, rest: string)
    requires PlainContent(content) && (first ==> content != "")
    ensures var r := ParseItems(content + "]", first);
            ParseItems(content + "]" + rest, first) == if r.BadItems? then BadItems else Items(r.items, rest)
    decreases |content|
  {
    var t, u := content + "]" + rest, content + "]";
    if content == "" {
      assert t[1..] == rest;
    } else {
      RangeLocal(content, rest);
      var n := RangeLength(u);
      assert t[0] == content[0] && u[0] == content[0];
      if n > 0 {
        assert t[n..] == content[n..] + "]" + rest && u[n..] == content[n..] + "]";
        ItemsLocal(content[n..], false, rest);
      }
    }
  }

  lemma ParseClassLocal(content: string, rest: string)
    requires PlainContent(content) && content != "" && content != "^"
    ensures var r := ParseClass(content + "]");
            ParseClass(content + "]" + rest) == if r.Bad? then Bad else Parsed(r.re, rest)
    ensures ParseClass(content + "]").Parsed? ==> ParseClass(content + "]").re.Class?
  {
    assert (content + "]" + rest)[0] == content[0] && (content + "]")[0] == content[0];
    if content[0] == '^' {
      assert (content + "]" + rest)[1..] == content[1..] + "]" + rest;
      assert (content + "]")[1..] == content[1..] + "]";
      ItemsLocal(content[1..], true, rest);
    } else {
      ItemsLocal(content, true, rest);
    }
  }

  /** Right after the opening bracket the closing one does not close. */
  lemma EmptyClass()
    ensures ParseAtom("[]").Bad? && ParseAtom("[^]").Bad?
  {
    assert ParseItems("", false) == BadItems;
    assert "]"[1..] == "";
    assert ParseItems("]", true) == BadItems;
    assert "[]"[1..] == "]" && "[^]"[1..] == "^]" && "^]"[1..] == "]";
  }

  lemma ClassLocal(content: string, rest: string)
    requires ProperClass(content)
    ensures ParseAtom("[" + content + "]" + rest) == Parsed(ParseAtom("[" + content + "]").re, rest)
    ensures ParseAtom("[" + content + "]").re.Class?
  {
    EmptyClass();
    assert "[" + "" + "]" == "[]" && "[" + "^" + "]" == "[^]";
    BracketThenClass(content, rest);
    ParseClassLocal(content, rest);
  }

  lemma OpenBracket(t: string)
    requires t != "" && t[0] == '['
    ensures ParseAtom(t) == ParseClass(t[1..])
  {
  }

  lemma BracketThenClass(content: string, rest: string)
    ensures ParseAtom("[" + content + "]" + rest) == ParseClass(content + "]" + rest)
    ensures ParseAtom("[" + content + "]") == ParseClass(content + "]")
  {
    var t, u := "[" + content + "]" + rest, "[" + content + "]";
    OpenBracket(t);
    OpenBracket(u);
    assert t[1..] == content + "]" + rest;
    assert u[1..] == content + "]";
  }

  lemma ParseBrackets(g: string, rest: string)
    requires HasClass(g) && ProperClass(g[1..ClassEnd(g, 1)])
    ensures ParseAtom(ClassText(g) + rest) == Parsed(HeadRe(g), rest)
    ensures ParseAtom(ClassText(g)) == Parsed(HeadRe(g), "") && HeadRe(g).Class?
  {
    ClassEndFirst(g, 1);
    var content := g[1..ClassEnd(g, 1)];
    assert ClassText(g) == "[" + content + "]";
    ClassLocal(content, rest);
    ClassLocal(content, "");
    assert "[" + content + "]" + "" == "[" + content + "]";
  }

  // --- parsing ---

  /** Emitted text never starts with something a preceding atom would take as its postfix. */
  lemma EmitStart(g: string)
    ensures Emit(g) == "" || (Emit(g)[0] != '*' && Emit(g)[0] != '?')
  {
  }

  /** Reading one emitted piece off the front of the text. */
  lemma ParsePiece(g: string, rest: string)
    requires g != "" && Proper(g) && (rest == "" || (rest[0] != '*' && rest[0] != '?'))
    ensures var t := Head(g).text + rest;
            && t != "" && t[0] != ')' && ParseAtom(t).Parsed?
            && Postfix(ParseAtom(t).re, ParseAtom(t).rest) == Parsed(HeadRe(g), rest)
  {
    if g[0] == '*' {
      if |g| > 1 && g[1] == '*' {
        if |g| > 2 && g[2] == '/' { ParseSegments(rest); } else { ParseDots(rest); }
      } else {
        ParseNotSlash("*" + rest);
      }
    } else if g[0] == '?' {
      ParseNotSlash(rest);
    } else if HasClass(g) {
      ParseBrackets(g, rest);
    } else {
      ParseLiteral(g, rest);
    }
  }

  lemma ParseDots(rest: string)
    ensures var t := ".*" + rest;
            ParseAtom(t).Parsed? && Postfix(ParseAtom(t).re, ParseAtom(t).rest) == Parsed(Star(AnyChar), rest)
  {
    var t := ".*" + rest;
    assert t[1..] == "*" + rest && ("*" + rest)[1..] == rest;
  }

  lemma SlashItems(more: string)
    ensures ParseItems("/]" + more, true) == Items([Item(false, [('/', '/')])], more)
  {
    var t := "/]" + more;
    assert t[1..] == "]" + more && ("]" + more)[1..] == more;
    assert ParseItems("]" + more, false) == Items([], more);
    assert RangeLength(t) == 1;
  }

  lemma CaretClass(t: string)
    requires t != "" && t[0] == '^'
    ensures var items := ParseItems(t[1..], true);
            ParseClass(t) == if items.BadItems? then Bad else Parsed(Class(true, items.items), items.rest)
  {
  }

  lemma NotSlashClass(more: string)
    ensures ParseClass("^/]" + more) == Parsed(NOT_SLASH, more)
  {
    var u := "^/]" + more;
    assert u[1..] == "/]" + more;
    CaretClass(u);
    SlashItems(more);
  }

  lemma StarText(more: string)
    ensures more != "" && more[0] == '*' ==> "[^/]" + more == "[^/]*" + more[1..]
  {
  }

  lemma BracketFront(u: string)
    ensures ParseAtom("[" + u) == ParseClass(u)
  {
    assert ("[" + u)[1..] == u;
    OpenBracket("[" + u);
  }

  lemma NotSlashText(more: string)
    ensures "[^/]" + more == "[" + ("^/]" + more)
  {
  }

  lemma ParseNotSlash(more: string)
    ensures ParseAtom("[^/]" + more) == Parsed(NOT_SLASH, more)
    ensures more != "" && more[0] == '*' ==> "[^/]" + more == "[^/]*" + more[1..]
  {
    NotSlashText(more);
    BracketFront("^/]" + more);
    NotSlashClass(more);
    StarText(more);
  }

  lemma ParseLiteral(g: string, rest: string)
    requires g != "" && !HasClass(g) && g[0] != '*' && g[0] != '?'
    ensures var t := Head(g).text + rest; t[0] != ')' && ParseAtom(t) == Parsed(Lit(g[0]), rest)
  {
    var t := Head(g).text + rest;
    if Escaped(g[0]) || g[0] == '[' {
      assert t[2..] == rest;
    } else {
      assert t[1..] == rest;
    }
  }

  lemma ParseSegments(rest: string)
    requires rest == "" || (rest[0] != '*' && rest[0] != '?')
    ensures var t := "(?:.*/)?" + rest;
            ParseAtom(t).Parsed? && Postfix(ParseAtom(t).re, ParseAtom(t).rest) == Parsed(SEGMENTS, rest)
  {
    var t, close := "(?:.*/)?" + rest, ")?" + rest;
    assert t[..3] == "(?:" && t[3..] == ".*/" + close;
    ParseGroup(close);
    assert close[1..] == "?" + rest && ("?" + rest)[1..] == rest;
  }

  /** The inside of the segments group, up to its closing parenthesis. */
  lemma ParseGroup(close: string)
    requires close != "" && close[0] == ')'
    ensures ParseCat(".*/" + close) == Parsed(Cat(Star(AnyChar), Cat(Lit('/'), Eps)), close)
  {
    ParseSlash(close);
    var star := ".*/" + close;
    assert star[1..] == "*/" + close && ("*/" + close)[1..] == "/" + close;
    assert ParseAtom(star) == Parsed(AnyChar, "*/" + close);
    assert Postfix(AnyChar, "*/" + close) == Parsed(Star(AnyChar), "/" + close);
  }

  lemma ParseSlash(close: string)
    requires close != "" && close[0] == ')'
    ensures ParseCat("/" + close) == Parsed(Cat(Lit('/'), Eps), close)
  {
    var slash := "/" + close;
    assert slash[1..] == close;
    assert ParseAtom(slash) == Parsed(Lit('/'), close);
    assert ParseCat(close) == Parsed(Eps, close);
  }

  lemma {:induction false} ParseEmit(g: string)
    requires Proper(g)
    ensures ParseCat(Emit(g)) == Parsed(ReOf(g), "")
    decreases |g|
  {
    if g != "" {
      var tail := g[Head(g).length..];
      ParseEmit(tail);
      EmitStart(tail);
      ParsePiece(g, Emit(tail));
    }
  }

  // --- meaning ---

  lemma {:induction false} AnyStar(u: string)
    ensures Matches(Star(AnyChar), u) <==> OneLine(u)
    decreases |u|
  {
    if u != "" {
      AnyStar(u[1..]);
      assert u == [u[0]] + u[1..] && u[..1] == [u[0]];
      assert OneLine(u) <==> u[0] != '\n' && OneLine(u[1..]);
      forall i | 0 < i <= |u| ensures Matches(AnyChar, u[..i]) <==> i == 1 && u[0] != '\n' {
        assert u[..i][0] == u[0];
      }
    }
  }

  lemma {:induction false} SegmentStar(u: string)
    ensures Matches(Star(NOT_SLASH), u) <==> '/' !in u
    decreases |u|
  {
    if u != "" {
      SegmentStar(u[1..]);
      assert u == [u[0]] + u[1..];
      assert u[..1] == [u[0]];
      forall i | 0 < i <= |u| ensures Matches(NOT_SLASH, u[..i]) <==> i == 1 && u[0] != '/' {
        NotSlash(u[..i]);
      }
    }
  }

  lemma SegmentsRe(u: string)
    ensures Matches(SEGMENTS, u) <==> LeadingSegments(u) && OneLine(u)
  {
    if u != "" {
      var slash, n := Cat(Lit('/'), Eps), |u| - 1;
      forall i | 0 <= i <= |u| ensures Matches(slash, u[i..]) <==> i == n && u[n] == '/' {
        SlashOnly(u[i..]);
        assert u[i..] == "/" <==> i == n && u[n] == '/';
      }
      AnyStar(u[..n]);
      assert u == u[..n] + [u[n]];
      assert Matches(SEGMENTS, u) <==> Matches(Cat(Star(AnyChar), slash), u);
    }
  }

  lemma SlashOnly(u: string)
    ensures Matches(Cat(Lit('/'), Eps), u) <==> u == "/"
  {
    assert forall i :: 0 <= i <= |u| ==>
      (Matches(Lit('/'), u[..i]) && Matches(Eps, u[i..]) <==> i == |u| && u[..i] == "/");
    assert u[..|u|] == u;
  }

  /** Matching the head piece, for each kind of glob head. */
  ghost predicate HeadMeans(g: string, u: string)
    requires g != ""
  {
    if g[0] == '*' then
      if |g| > 1 && g[1] == '*' then OneLine(u) && (|g| > 2 && g[2] == '/' ==> LeadingSegments(u))
      else '/' !in u
    else if g[0] == '?' then |u| == 1 && u[0] != '/'
    else if HasClass(g) then |u| == 1 && InBrackets(ClassText(g), u[0])
    else u == [g[0]]
  }

  lemma HeadMatches(g: string, u: string)
    requires g != "" && Proper(g)
    ensures Matches(HeadRe(g), u) <==> HeadMeans(g, u)
  {
    SegmentStar(u);
    SegmentsRe(u);
    AnyStar(u);
    NotSlash(u);
    if HasClass(g) { ParseBrackets(g, ""); }
    if |u| == 1 { assert u == [u[0]]; }
  }

  lemma NotSlash(u: string)
    ensures Matches(NOT_SLASH, u) <==> |u| == 1 && u[0] != '/'
  {
    if |u| == 1 {
      assert InRanges([('/', '/')], u[0]) <==> u[0] == '/' by {
        assert [('/', '/')][0] == ('/', '/');
      }
      assert [Item(false, [('/', '/')])][0] == Item(false, [('/', '/')]);
    }
  }

  /** The globs whose head is any number of characters, and those whose head is one. */
  predicate OneCharHead(g: string)
    requires g != ""
  {
    g[0] != '*'
  }

  lemma OneCharMeans(g: string, u: string)
    requires g != "" && OneCharHead(g) && HeadMeans(g, u)
    ensures |u| == 1
  {
  }

  lemma OneCharGlob(g: string, s: string)
    requires g != "" && OneCharHead(g)
    ensures InGlob(g, s) <==> s != "" && HeadMeans(g, s[..1]) && InGlob(g[Head(g).length..], s[1..])
  {
    if s != "" { assert s[..1] == [s[0]]; }
    if HasClass(g) { assert Head(g).length == |ClassText(g)|; }
  }

  /** A glob holds of a path exactly when the path splits into a head part and a rest. */
  lemma GlobSplit(g: string, s: string)
    requires g != ""
    ensures InGlob(g, s) <==>
            exists i :: 0 <= i <= |s| && HeadMeans(g, s[..i]) && InGlob(g[Head(g).length..], s[i..])
  {
    if OneCharHead(g) {
      OneCharGlob(g, s);
      if i :| 0 <= i <= |s| && HeadMeans(g, s[..i]) && InGlob(g[Head(g).length..], s[i..]) {
        OneCharMeans(g, s[..i]);
      }
    } else {
      StarGlob(g, s);
    }
  }

  lemma StarGlob(g: string, s: string)
    requires g != "" && !OneCharHead(g)
    ensures InGlob(g, s) <==>
            exists i :: 0 <= i <= |s| && HeadMeans(g, s[..i]) && InGlob(g[Head(g).length..], s[i..])
  {
  }

  lemma {:induction false} MeaningKept(g: string, s: string)
    requires Proper(g)
    ensures Matches(ReOf(g), s) <==> InGlob(g, s)
    decreases |g|
  {
    if g != "" {
      var tail := g[Head(g).length..];
      forall i | 0 <= i <= |s|
        ensures Matches(HeadRe(g), s[..i]) <==> HeadMeans(g, s[..i])
        ensures Matches(ReOf(tail), s[i..]) <==> InGlob(tail, s[i..])
      {
        HeadMatches(g, s[..i]);
        MeaningKept(tail, s[i..]);
      }
      GlobSplit(g, s);
      CatSplit(g, s);
    }
  }

  lemma CatSplit(g: string, s: string)
    requires g != ""
    ensures Matches(ReOf(g), s) <==>
            exists i :: 0 <= i <= |s| && Matches(HeadRe(g), s[..i]) && Matches(ReOf(g[Head(g).length..]), s[i..])
  {
  }

  /**
   * The text globToRegex writes for a glob with proper classes is a well-formed anchored
   * expression, and it accepts exactly the glob's language.
   */
  lemma CompilationPreservesMeaning(g: string, s: string)
    requires Proper(g)
    ensures var r := ParseAnchored("^" + Emit(g) + "$");
            r.Parsed? && (Matches(r.re, s) <==> InGlob(g, s))
  {
    var text := "^" + Emit(g) + "$";
    assert text[1..|text| - 1] == Emit(g);
    ParseEmit(g);
    MeaningKept(g, s);
  }

  // --- directory rules ---

  /** A name with no glob character in it. */
  ghost predicate Plain(d: string) {
    forall i :: 0 <= i < |d| ==> d[i] != '*' && d[i] != '?'
  }

  lemma {:induction false} PlainPrefix(d: string, g: string, s: string)
    requires Plain(d) && ClassFree(d + g)
    ensures InGlob(d + g, s) <==> d <= s && InGlob(g, s[|d|..])
    decreases |d|
  {
    if d == "" {
      assert d + g == g && s[0..] == s;
    } else {
      assert (d + g)[1..] == d[1..] + g;
      ClassEndFirst(d + g, 1);
      if s != "" {
        PlainPrefix(d[1..], g, s[1..]);
        assert d <= s <==> d[0] == s[0] && d[1..] <= s[1..] by {
          assert d == [d[0]] + d[1..] && s == [s[0]] + s[1..];
        }
        if |d| <= |s| { assert s[1..][|d[1..]|..] == s[|d|..]; }
      }
    }
  }

  lemma AnythingInGlob(u: string)
    requires OneLine(u)
    ensures InGlob("**", u)
  {
    assert u[..|u|] == u && InGlob("**"[2..], u[|u|..]);
  }

  /** s has d, followed by a slash, as one of its segments. */
  ghost predicate HasSegment(s: string, d: string) {
    exists i :: 0 <= i <= |s| && LeadingSegments(s[..i]) && d + "/" <= s[i..]
  }

  function DirectoryGlob(d: string): string {
    "**/" + (d + "/") + "**"
  }

  lemma DirectoryLanguage(d: string, s: string)
    requires Plain(d) && ClassFree(d) && OneLine(s)
    ensures InGlob(DirectoryGlob(d), s) <==> HasSegment(s, d)
  {
    var g := DirectoryGlob(d);
    var tail := (d + "/") + "**";
    assert g[3..] == tail;
    DirectoryClassFree(d);
    TailClassFree(g, 3);
    forall i | 0 <= i <= |s| ensures InGlob(tail, s[i..]) <==> d + "/" <= s[i..] {
      PlainPrefix(d + "/", "**", s[i..]);
      if d + "/" <= s[i..] { AnythingInGlob(s[i..][|d + "/"|..]); }
    }
  }

  lemma DirectoryClassFree(d: string)
    requires ClassFree(d)
    ensures ClassFree(DirectoryGlob(d))
  {
    var g := DirectoryGlob(d);
    assert forall i :: 0 <= i < |g| ==>
      g[i] == if 3 <= i < |d| + 3 then d[i - 3] else if i == 2 || i == |d| + 3 then '/' else '*';
  }

  /** The text compiled for a directory rule matches the directory at the root and at any depth, and nothing else. */
  lemma DirectoryRule(d: string, s: string)
    requires Plain(d) && ClassFree(d) && OneLine(s)
    ensures var r := ParseAnchored("^" + Emit(DirectoryGlob(d)) + "$");
            r.Parsed? && (Matches(r.re, s) <==> HasSegment(s, d))
  {
    DirectoryClassFree(d);
    ClassFreeProper(DirectoryGlob(d));
    CompilationPreservesMeaning(DirectoryGlob(d), s);
    DirectoryLanguage(d, s);
  }

  // --- compiled patterns ---

  /** A pattern with proper classes compiles unless it is blank, and hits what its normalized glob stands for. */
  lemma CompiledMeans(pattern: string, rel: string)
    requires Proper(Normalized(pattern))
    ensures var g, m := Normalized(pattern), CompiledOf(pattern);
            && (m.Some? <==> g != "")
            && (g != "" ==> (Hits(m.value, rel) <==> InGlob(g, if '/' in g then rel else Base(rel))))
  {
    CompilationPreservesMeaning(Normalized(pattern), if '/' in Normalized(pattern) then rel else Base(rel));
  }

  lemma {:induction false} LastSegmentOf(dir: string, name: string)
    requires '/' !in name && LeadingSegments(dir)
    ensures LastSegment(dir + name) == name
  {
    if dir == "" {
      assert dir + name == name;
    } else {
      assert (dir + name)[|dir| - 1] == '/';
      assert (dir + name)[1..] == dir[1..] + name;
      LastSegmentOf(dir[1..], name);
    }
  }

  /** The base of a path is the name behind its directories. */
  lemma BaseOf(dir: string, name: string)
    requires name != "" && '/' !in name && LeadingSegments(dir)
    ensures Base(dir + name) == name
  {
    assert (dir + name)[|dir + name| - 1] == name[|name| - 1];
    LastSegmentOf(dir, name);
  }

  /** A compiled slash-free pattern depends on the file name alone, at any depth. */
  lemma BasenameRule(pattern: string, dir: string, name: string)
    requires var g := Normalized(pattern); g != "" && Proper(g) && '/' !in g
    requires name != "" && '/' !in name && LeadingSegments(dir)
    ensures CompiledOf(pattern).Some?
    ensures Hits(CompiledOf(pattern).value, dir + name) <==> InGlob(Normalized(pattern), name)
  {
    CompiledMeans(pattern, dir + name);
    BaseOf(dir, name);
  }

  /** A single path segment that normalization leaves alone. */
  ghost predicate SegmentName(d: string) {
    d != "" && Plain(d) && ClassFree(d) && forall i :: 0 <= i < |d| ==> d[i] != '/' && d[i] != '\\'
  }

  lemma {:induction false} OneSlashClean(d: string, rest: string)
    requires d != "" && '/' !in d && !DoubleSlash(rest)
    ensures !DoubleSlash(d + rest)
  {
    assert (d + rest)[1..] == d[1..] + rest;
    if |d| > 1 {
      OneSlashClean(d[1..], rest);
    } else {
      assert d[1..] + rest == rest;
    }
  }

  lemma DirectoryNoDouble(d: string)
    requires SegmentName(d)
    ensures !DoubleSlash(DirectoryGlob(d))
  {
    assert !DoubleSlash("/**");
    OneSlashClean(d, "/**");
    assert ("/" + (d + "/**"))[1..] == d + "/**";
    OneSlashClean("**", "/" + (d + "/**"));
    assert DirectoryGlob(d) == "**" + ("/" + (d + "/**"));
  }

  lemma NoBackslash(g: string)
    requires '\\' !in g
    ensures ToSlashes(g) == g
  {
  }

  lemma NothingToTrim(g: string)
    requires g != "" && g[0] == '*' && g[|g| - 1] == '*'
    ensures TrimSpace(g) == g && TrimPrefix(g, "./") == g && TrimPrefix(g, "/") == g
  {
  }

  lemma DirectoryNormalized(d: string)
    requires SegmentName(d)
    ensures Normalized(DirectoryGlob(d)) == DirectoryGlob(d)
  {
    var g := DirectoryGlob(d);
    NothingToTrim(g);
    assert '\\' !in g;
    NoBackslash(g);
    DirectoryNoDouble(d);
    SqueezedSame(g);
  }

  /** A filter that only excludes one directory rejects exactly what lies in a directory of that name. */
  lemma ExcludedDirectory(d: string, raw: string, allowed: bool)
    requires SegmentName(d) && OneLine(Normalized(raw))
    ensures CompiledOf(DirectoryGlob(d)).Some?
    ensures Verdict(Filter([], [], [CompiledOf(DirectoryGlob(d)).value]), Normalized(raw), allowed) <==>
            (allowed <==> !HasSegment(Normalized(raw), d))
  {
    var g, rel := DirectoryGlob(d), Normalized(raw);
    DirectoryNormalized(d);
    DirectoryClassFree(d);
    ClassFreeProper(g);
    CompiledMeans(g, rel);
    DirectoryLanguage(d, rel);
    assert g[2] == '/';
    var m := CompiledOf(g).value;
    assert [m][0] == m && (AnyHits([m], rel) <==> Hits(m, rel));
    if rel == "." {
      assert !HasSegment(rel, d);
    }
  }

  // --- single wildcards between plain texts ---

  /** s is d, then u, then e. */
  ghost predicate Between(s: string, d: string, u: string, e: string) {
    s == d + u + e
  }

  lemma {:induction false} PlainAll(e: string, s: string)
    requires Plain(e) && ClassFree(e)
    ensures InGlob(e, s) <==> s == e
  {
    assert e + "" == e;
    PlainPrefix(e, "", s);
    assert e <= s && s[|e|..] == "" ==> s == e + s[|e|..];
  }

  /** A text that begins with d, read from there on. */
  lemma After(d: string, s: string, t: string)
    ensures d <= s && s[|d|..] == t <==> s == d + t
  {
    if d <= s { assert s == d + s[|d|..]; }
    assert s == d + t ==> s[..|d|] == d && s[|d|..] == t;
  }

  /** One star between plain texts stands for any characters but slashes. */
  lemma StarRule(d: string, e: string, s: string)
    requires Plain(d) && Plain(e) && ClassFree(d + "*" + e) && e != "" && e[0] != '/'
    ensures InGlob(d + "*" + e, s) <==> exists u :: '/' !in u && Between(s, d, u, e)
  {
    var g := "*" + e;
    Parts(d, "*", e);
    PlainPrefix(d, g, s);
    if d <= s {
      var t := s[|d|..];
      StarHere(e, t);
      if u :| '/' !in u && t == u + e { After(d, s, u + e); assert Between(s, d, u, e); }
    }
    if u :| '/' !in u && Between(s, d, u, e) { After(d, s, u + e); assert s == d + (u + e); }
  }

  lemma Parts(d: string, w: string, e: string)
    requires ClassFree(d + w + e)
    ensures d + w + e == d + (w + e) && ClassFree(w + e) && ClassFree(e)
  {
    assert d + w + e == d + (w + e);
    TailClassFree(d + (w + e), |d|);
    assert (d + (w + e))[|d|..] == w + e && (w + e)[|w|..] == e;
    TailClassFree(w + e, |w|);
  }

  lemma StarHere(e: string, t: string)
    requires Plain(e) && ClassFree(e)
    ensures InGlob("*" + e, t) <==> exists u :: '/' !in u && t == u + e
  {
    var g := "*" + e;
    assert g[1..] == e && (|g| > 1 ==> g[1] != '*');
    forall i | 0 <= i <= |t| ensures InGlob(e, t[i..]) <==> t[i..] == e { PlainAll(e, t[i..]); }
    if i :| 0 <= i <= |t| && '/' !in t[..i] && t[i..] == e { assert t == t[..i] + e; }
    if u :| '/' !in u && t == u + e { assert t[..|u|] == u && t[|u|..] == e; }
  }

  /** One question mark between plain texts stands for one character that is no slash. */
  lemma QuestionRule(d: string, e: string, s: string)
    requires Plain(d) && Plain(e) && ClassFree(d + "?" + e)
    ensures InGlob(d + "?" + e, s) <==> exists c :: c != '/' && Between(s, d, [c], e)
  {
    Parts(d, "?", e);
    PlainPrefix(d, "?" + e, s);
    if d <= s {
      var t := s[|d|..];
      QuestionHere(e, t);
      if c :| c != '/' && t == [c] + e { After(d, s, [c] + e); assert Between(s, d, [c], e); }
    }
    if c :| c != '/' && Between(s, d, [c], e) { After(d, s, [c] + e); assert s == d + ([c] + e); }
  }

  lemma QuestionHere(e: string, t: string)
    requires Plain(e) && ClassFree(e)
    ensures InGlob("?" + e, t) <==> exists c :: c != '/' && t == [c] + e
  {
    var g := "?" + e;
    assert g[1..] == e;
    if t != "" {
      PlainAll(e, t[1..]);
      assert t == [t[0]] + t[1..];
    }
    if c :| c != '/' && t == [c] + e { assert t[0] == c && t[1..] == e; }
  }

  /** The named classes of letters and digits, as Go defines them on ASCII. */
  lemma NamedLetters(c: char)
    ensures Holds("digit", c) <==> '0' <= c <= '9'
    ensures Holds("upper", c) <==> 'A' <= c <= 'Z'
    ensures Holds("lower", c) <==> 'a' <= c <= 'z'
  {
    FourEnough("digit", c);
    FourEnough("upper", c);
    FourEnough("lower", c);
  }

  /** Those of more than one of these. */
  lemma NamedWords(c: char)
    ensures Holds("alpha", c) <==> 'A' <= c <= 'Z' || 'a' <= c <= 'z'
    ensures Holds("alnum", c) <==> '0' <= c <= '9' || 'A' <= c <= 'Z' || 'a' <= c <= 'z'
    ensures Holds("word", c) <==> '0' <= c <= '9' || 'A' <= c <= 'Z' || 'a' <= c <= 'z' || c == '_'
    ensures Holds("xdigit", c) <==> '0' <= c <= '9' || 'A' <= c <= 'F' || 'a' <= c <= 'f'
  {
    FourEnough("alpha", c);
    FourEnough("alnum", c);
    FourEnough("word", c);
    FourEnough("xdigit", c);
  }

  /** Those of spaces and controls. */
  lemma NamedSpaces(c: char)
    ensures Holds("space", c) <==> c in " \t\n\U{B}\U{C}\r"
    ensures Holds("blank", c) <==> c in " \t"
    ensures Holds("cntrl", c) <==> c as int < 32 || c as int == 127
  {
    FourEnough("space", c);
    FourEnough("blank", c);
    FourEnough("cntrl", c);
  }

  /** Those of signs. */
  lemma NamedSigns(c: char)
    ensures Holds("graph", c) <==> '!' <= c <= '~'
    ensures Holds("print", c) <==> ' ' <= c <= '~'
    ensures Holds("ascii", c) <==> c as int < 128
    ensures Holds("punct", c) <==> '!' <= c <= '/' || ':' <= c <= '@' || '[' <= c <= '`' || '{' <= c <= '~'
  {
    FourEnough("graph", c);
    FourEnough("print", c);
    FourEnough("ascii", c);
    FourEnough("punct", c);
  }

  predicate Holds(name: string, c: char) {
    InRanges(Ranges(name), c)
  }

  predicate FourRanges(rs: seq<(char, char)>, c: char) {
    || (|rs| > 0 && rs[0].0 <= c <= rs[0].1) || (|rs| > 1 && rs[1].0 <= c <= rs[1].1)
    || (|rs| > 2 && rs[2].0 <= c <= rs[2].1) || (|rs| > 3 && rs[3].0 <= c <= rs[3].1)
  }

  lemma FourEnough(name: string, c: char)
    requires |Ranges(name)| <= 4
    ensures Holds(name, c) <==> FourRanges(Ranges(name), c)
  {
  }

  /** A class of one named item, and its complement. */
  lemma NamedItem(name: string, c: char)
    requires name != "" && name[0] != '^'
    ensures InClass([Named(name)], c) <==> Holds(name, c)
    ensures InClass([Named("^" + name)], c) <==> !Holds(name, c)
  {
    assert ("^" + name)[1..] == name;
    assert [Named(name)][0] == Item(false, Ranges(name)) && [Named("^" + name)][0] == Item(true, Ranges(name));
  }

  // --- a class, read ---

  lemma RangeClass()
    ensures ParseAtom("[a-c]") == Parsed(Class(false, [Item(false, [('a', 'c')])]), "")
  {
    assert "a-c]"[2..] == "c]" && "a-c]"[3..] == "]" && "]"[1..] == "";
    assert RangeLength("a-c]") == 3 && RangeItem("a-c]") == Item(false, [('a', 'c')]);
    assert ParseItems("]", false) == Items([], "");
    assert ParseItems("a-c]", true) == Items([Item(false, [('a', 'c')])], "");
    assert "[" + "a-c]" == "[a-c]";
    BracketFront("a-c]");
  }

  lemma RangeShape(g: string)
    requires g == "[a-c]"
    ensures HasClass(g) && ClassText(g) == g && Head(g).length == 5 && g[1..ClassEnd(g, 1)] == "a-c"
  {
    ClassEndFirst(g, 1);
    assert g[4] == ']' && ClassEnd(g, 1) == 4;
  }

  lemma RangeProper(g: string)
    requires g == "[a-c]"
    ensures Proper(g)
  {
    RangeShape(g);
    RangeClass();
    assert "[" + "a-c" + "]" == g && ProperClass("a-c");
    assert g[5..] == "";
  }

  lemma RangeGlob(g: string, s: string)
    requires g == "[a-c]"
    ensures InGlob(g, s) <==> |s| == 1 && 'a' <= s[0] <= 'c'
  {
    RangeShape(g);
    assert g[5..] == "";
    if s != "" { RangeHolds(s[0]); }
  }

  /** The compiled glob `[a-c]` accepts exactly the three names. */
  lemma RangeExample(s: string)
    ensures var r := ParseAnchored("^" + Emit("[a-c]") + "$");
            r.Parsed? && (Matches(r.re, s) <==> |s| == 1 && 'a' <= s[0] <= 'c')
  {
    RangeProper("[a-c]");
    CompilationPreservesMeaning("[a-c]", s);
    RangeGlob("[a-c]", s);
  }

  lemma RangeHolds(c: char)
    ensures InBrackets("[a-c]", c) <==> 'a' <= c <= 'c'
  {
    RangeClass();
    var ranges := [('a', 'c')];
    assert ranges[0] == ('a', 'c') && [Item(false, ranges)][0] == Item(false, ranges);
    assert InRanges(ranges, c) <==> 'a' <= c <= 'c';
  }
}
