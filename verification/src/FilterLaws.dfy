/** Spellings of one pattern, and what whole filters say (internal/filter/filter.go, lines 72-139). */
module FilterLaws {
  import opened Glob
  import opened GlobLaws

  // --- spellings ---

  /** A pattern or path that needs no normalizing. */
  ghost predicate Canonical(g: string) {
    && (g != "" ==> !IsSpace(g[0]) && !IsSpace(g[|g| - 1]) && g[0] != '/')
    && !("./" <= g) && !DoubleSlash(g) && '\\' !in g
  }

  lemma NoTrim(s: string)
    requires s != "" ==> !IsSpace(s[0]) && !IsSpace(s[|s| - 1])
    ensures TrimSpace(s) == s
  {
  }

  lemma NoPrefix(g: string)
    requires Canonical(g)
    ensures TrimPrefix(g, "./") == g && TrimPrefix(g, "/") == g
  {
  }

  /** From the slashed text on: with a prefix taken off, a canonical text stays. */
  lemma PrefixOff(g: string)
    requires Canonical(g)
    ensures TrimPrefix(TrimPrefix(g, "./"), "/") == g
    ensures TrimPrefix(TrimPrefix("./" + g, "./"), "/") == g
    ensures TrimPrefix(TrimPrefix("/" + g, "./"), "/") == g
  {
    NoPrefix(g);
    assert "./" <= "./" + g && ("./" + g)[2..] == g;
    assert "/" <= "/" + g && ("/" + g)[1..] == g;
    assert ("/" + g)[0] != "./"[0];
  }

  lemma CanonicalStays(g: string)
    requires Canonical(g)
    ensures Normalized(g) == g
  {
    NoTrim(g);
    NoBackslash(g);
    PrefixOff(g);
    SqueezedSame(g);
  }

  lemma DotSlashOff(g: string)
    requires Canonical(g)
    ensures Normalized("./" + g) == g
  {
    var h := "./" + g;
    assert h[0] == '.' && h[|h| - 1] == if g == "" then '/' else g[|g| - 1];
    NoTrim(h);
    NoBackslash(h);
    PrefixOff(g);
    SqueezedSame(g);
  }

  lemma SlashOff(g: string)
    requires Canonical(g)
    ensures Normalized("/" + g) == g
  {
    var h := "/" + g;
    assert h[0] == '/' && h[|h| - 1] == if g == "" then '/' else g[|g| - 1];
    NoTrim(h);
    NoBackslash(h);
    PrefixOff(g);
    SqueezedSame(g);
  }

  ghost predicate Blank(u: string) {
    forall c :: c in u ==> IsSpace(c)
  }

  lemma {:induction false} TrimBlank(u: string)
    requires Blank(u)
    ensures TrimSpace(u) == ""
  {
    if u != "" {
      assert u[0] in u;
      TrimBlank(u[1..]);
    }
  }

  lemma {:induction false} TrimAround(u: string, g: string, v: string)
    requires Blank(u) && Blank(v) && (g != "" ==> !IsSpace(g[0]) && !IsSpace(g[|g| - 1]))
    ensures TrimSpace(u + g + v) == g
    decreases |u| + |v|
  {
    var s := u + g + v;
    if g == "" {
      assert s == u + v;
      TrimBlank(s);
    } else if u != "" {
      assert u[0] in u && s[0] == u[0] && s[1..] == u[1..] + g + v;
      TrimAround(u[1..], g, v);
    } else if v != "" {
      assert v[|v| - 1] in v && s[0] == g[0] && s[|s| - 1] == v[|v| - 1];
      assert s[..|s| - 1] == u + g + v[..|v| - 1];
      TrimAround(u, g, v[..|v| - 1]);
    } else {
      assert s == g;
      NoTrim(g);
    }
  }

  lemma SpacesOff(u: string, g: string, v: string)
    requires Canonical(g) && Blank(u) && Blank(v)
    ensures Normalized(u + g + v) == g
  {
    TrimAround(u, g, v);
    NoBackslash(g);
    PrefixOff(g);
    SqueezedSame(g);
  }

  /** h is g with some slashes written as backslashes. */
  ghost predicate Backslashed(g: string, h: string) {
    |h| == |g| && forall i :: 0 <= i < |g| ==> h[i] == g[i] || (g[i] == '/' && h[i] == '\\')
  }

  lemma BackslashesTurned(g: string, h: string)
    requires Canonical(g) && Backslashed(g, h)
    ensures Normalized(h) == g
  {
    NoTrim(h);
    assert forall i :: 0 <= i < |g| ==> g[i] in g;
    assert ToSlashes(h) == g;
    PrefixOff(g);
    SqueezedSame(g);
  }

  lemma {:induction false} DoubleSqueezed(u: string, v: string)
    ensures Squeezed(u + "//" + v) == Squeezed(u + "/" + v)
  {
    if u == "" {
      assert u + "//" + v == "//" + v && u + "/" + v == "/" + v && ("//" + v)[1..] == "/" + v;
    } else {
      DoubleSqueezed(u[1..], v);
      assert u + "//" + v == [u[0]] + (u[1..] + "//" + v) && u + "/" + v == [u[0]] + (u[1..] + "/" + v);
      SqueezedCons(u[0], u[1..] + "//" + v);
      SqueezedCons(u[0], u[1..] + "/" + v);
      if u[1..] != "" { assert (u[1..] + "//" + v)[0] == u[1] == (u[1..] + "/" + v)[0]; }
    }
  }

  lemma DoubleSlashMerged(u: string, v: string)
    requires Canonical(u + "/" + v) && u != ""
    ensures Normalized(u + "//" + v) == u + "/" + v
  {
    var g, h := u + "/" + v, u + "//" + v;
    assert h[0] == g[0] == u[0] && h[|h| - 1] == g[|g| - 1];
    NoTrim(h);
    assert forall c :: c in h ==> c in g || c == '/';
    NoBackslash(h);
    assert !("./" <= h) by {
      if |u| > 1 { assert h[..2] == g[..2] == u[..2]; }
    }
    DoubleSqueezed(u, v);
    SqueezedSame(g);
  }

  /** The ways of writing g. */
  ghost predicate Spells(g: string, h: string) {
    || h == g || h == "./" + g || h == "/" + g || Backslashed(g, h)
    || (exists u, v :: Blank(u) && Blank(v) && h == u + g + v)
    || (exists u, v :: u != "" && g == u + "/" + v && h == u + "//" + v)
  }

  lemma SpellsNormal(g: string, h: string)
    requires Canonical(g) && Spells(g, h)
    ensures Normalized(h) == g
  {
    if h == g {
      CanonicalStays(g);
    } else if h == "./" + g {
      DotSlashOff(g);
    } else if h == "/" + g {
      SlashOff(g);
    } else if Backslashed(g, h) {
      BackslashesTurned(g, h);
    } else if u, v :| Blank(u) && Blank(v) && h == u + g + v {
      SpacesOff(u, g, v);
    } else {
      var u, v :| u != "" && g == u + "/" + v && h == u + "//" + v;
      DoubleSlashMerged(u, v);
    }
  }

  /**
   * Every spelling of a pattern compiles to the same matcher, and every spelling of a path is
   * the same path to the filters.
   */
  lemma SpellingsAlike(g: string, h: string)
    requires Canonical(g) && Spells(g, h)
    ensures Normalized(h) == Normalized(g) == g && CompiledOf(h) == CompiledOf(g)
  {
    SpellsNormal(g, h);
    CanonicalStays(g);
  }

  /** What counts as a space, and what does not. */
  lemma SpacesAre(c: char)
    ensures c in " \t\n\U{B}\U{C}\r\U{85}\U{A0}\U{1680}\U{2000}\U{200A}\U{2028}\U{2029}\U{202F}\U{205F}\U{3000}" ==>
              IsSpace(c)
    ensures 'a' <= c <= 'z' || 'A' <= c <= 'Z' || '0' <= c <= '9' || c in "*?[]./\\-_+" ==> !IsSpace(c)
  {
  }

  // --- the base of a path ---

  lemma {:induction false} BareSlashes(u: string)
    requires forall i :: 0 <= i < |u| ==> u[i] == '/'
    ensures Bare(u) == ""
  {
    if u != "" {
      BareSlashes(u[..|u| - 1]);
    }
  }

  /** The empty path is `.`, a path of slashes `/`, and trailing slashes do not count. */
  lemma BaseCases(rel: string, u: string)
    requires forall i :: 0 <= i < |u| ==> u[i] == '/'
    ensures Base("") == "." && (u != "" ==> Base(u) == "/") && (rel != "" ==> Base(rel + "/") == Base(rel))
  {
    BareSlashes(u);
    assert (rel + "/")[|rel + "/"| - 1] == '/' && (rel + "/")[..|rel + "/"| - 1] == rel;
  }

  // --- whole filters ---

  /** The compiled rule for one directory. */
  function DirectoryMatcher(d: string): Matcher {
    match CompiledOf(DirectoryGlob(d))
    case Some(m) => m
    case None => Matcher(false, Regex.Eps)
  }

  lemma DirectoryHits(d: string, rel: string)
    requires SegmentName(d) && OneLine(rel)
    ensures Hits(DirectoryMatcher(d), rel) <==> HasSegment(rel, d)
  {
    DirectoryNormalized(d);
    DirectoryClassFree(d);
    ClassFreeProper(DirectoryGlob(d));
    CompiledMeans(DirectoryGlob(d), rel);
    DirectoryLanguage(d, rel);
    assert DirectoryGlob(d)[2] == '/';
  }

  /** Included directory d, excluded directory e: what lies in d and not in e. */
  lemma IncludedNotExcluded(d: string, e: string, rel: string, allowed: bool)
    requires SegmentName(d) && SegmentName(e) && OneLine(rel) && rel != "."
    ensures Verdict(Filter([], [DirectoryMatcher(d)], [DirectoryMatcher(e)]), rel, allowed) <==>
            (allowed <==> HasSegment(rel, d) && !HasSegment(rel, e))
    ensures Verdict(Filter([], [DirectoryMatcher(d)], []), rel, allowed) <==> (allowed <==> HasSegment(rel, d))
    ensures Verdict(Filter([], [], []), rel, allowed) <==> allowed
  {
    DirectoryHits(d, rel);
    DirectoryHits(e, rel);
    OneHits(DirectoryMatcher(d), rel);
    OneHits(DirectoryMatcher(e), rel);
  }

  lemma OneHits(m: Matcher, rel: string)
    ensures AnyHits([m], rel) <==> Hits(m, rel)
    ensures !AnyHits([], rel)
  {
    assert [m][0] == m;
  }

  /** Two rules, the first against and the second for: the second decides where it matches. */
  lemma TwoRules(m: Matcher, n: Matcher, rel: string, allowed: bool)
    requires rel != "."
    ensures Verdict(Filter([Rule(false, m), Rule(true, n)], [], []), rel, allowed) <==>
            (allowed <==> Hits(n, rel) || !Hits(m, rel))
  {
    var rules := [Rule(false, m), Rule(true, n)];
    assert rules[0].matcher == m && rules[1].matcher == n;
    assert LastMatch(rules, rel, 2, 1) <==> Hits(n, rel);
    assert LastMatch(rules, rel, 2, 0) <==> Hits(m, rel) && !Hits(n, rel);
  }

  /** A rule that excludes d and a later one that includes e: e wins where both match, and the rest is allowed. */
  lemma LaterRuleWins(d: string, e: string, rel: string, allowed: bool)
    requires SegmentName(d) && SegmentName(e) && OneLine(rel) && rel != "."
    ensures var rules := [Rule(false, DirectoryMatcher(d)), Rule(true, DirectoryMatcher(e))];
            Verdict(Filter(rules, [], []), rel, allowed) <==> (allowed <==> HasSegment(rel, e) || !HasSegment(rel, d))
  {
    DirectoryHits(d, rel);
    DirectoryHits(e, rel);
    TwoRules(DirectoryMatcher(d), DirectoryMatcher(e), rel, allowed);
  }

  /** The top of the tree is always allowed. */
  lemma TopAllowed(m: Filter, allowed: bool)
    ensures Verdict(m, Normalized("."), allowed) <==> allowed
  {
    CanonicalStays(".");
  }
}
