/**
 * Regular-expression text in Go's syntax, as far as compiled globs use it: literals, escapes,
 * `.`, bracket classes, non-capturing groups, postfix `*` and `?`.
 */
module Regex {
  datatype Re =
    | Eps
    | Lit(c: char)
    | AnyChar
    | Class(negated: bool, items: seq<Item>)
    | Cat(first: Re, second: Re)
    | Star(body: Re)
    | Opt(body: Re)

  /** One item of a class: ranges, or with a `^` in its name what lies outside them. */
  datatype Item = Item(negated: bool, ranges: seq<(char, char)>)

  datatype Parsed = Parsed(re: Re, rest: string) | Bad

  datatype Items = Items(items: seq<Item>, rest: string) | BadItems

  /** Punctuation that means something outside a class and may be escaped. */
  predicate Special(c: char) {
    c in "\\.+*?()|[]{}^$"
  }

  /** A concatenation, up to the end or a closing parenthesis. */
  function ParseCat(t: string): (r: Parsed)
    ensures r.Parsed? ==> |r.rest| <= |t|
    decreases |t|, 1
  {
    if t == "" || t[0] == ')' then Parsed(Eps, t)
    else
      var atom := ParseAtom(t);
      if atom.Bad? then Bad
      else
        var piece := Postfix(atom.re, atom.rest);
        var tail := ParseCat(piece.rest);
        if tail.Bad? then Bad else Parsed(Cat(piece.re, tail.re), tail.rest)
  }

  function ParseAtom(t: string): (r: Parsed)
    requires t != ""
    ensures r.Parsed? ==> |r.rest| < |t|
    decreases |t|, 0
  {
    if t[0] == '[' then ParseClass(t[1..])
    else if t[0] == '\\' then
      if |t| >= 2 && Special(t[1]) then Parsed(Lit(t[1]), t[2..]) else Bad
    else if |t| >= 3 && t[0] == '(' && t[1] == '?' && t[2] == ':' then
      var inner := ParseCat(t[3..]);
      if inner.Parsed? && inner.rest != "" && inner.rest[0] == ')' then Parsed(inner.re, inner.rest[1..]) else Bad
    else if t[0] == '.' then Parsed(AnyChar, t[1..])
    else if Special(t[0]) && t[0] != ']' then Bad
    else Parsed(Lit(t[0]), t[1..])
  }

  /** A class, after its opening bracket. */
  function ParseClass(t: string): (r: Parsed)
    ensures r.Parsed? ==> |r.rest| <= |t|
  {
    var negated := t != "" && t[0] == '^';
    var items := ParseItems(if negated then t[1..] else t, true);
    if items.BadItems? then Bad else Parsed(Class(negated, items.items), items.rest)
  }

  /** Items up to the closing bracket; right after the opening one a bracket stands for itself. */
  function ParseItems(t: string, first: bool): (r: Items)
    ensures r.Items? ==> |r.rest| <= |t|
    decreases |t|
  {
    if t == "" then BadItems
    else if t[0] == ']' && !first then Items([], t[1..])
    else if NameEnd(t) < |t| then
      var item := Named(t[2..NameEnd(t)]);
      var tail := ParseItems(t[NameEnd(t) + 2..], false);
      if item.ranges == [] || tail.BadItems? then BadItems else Items([item] + tail.items, tail.rest)
    else
      var n := RangeLength(t);
      if n == 0 then BadItems
      else
        var tail := ParseItems(t[n..], false);
        if tail.BadItems? then BadItems else Items([RangeItem(t)] + tail.items, tail.rest)
  }

  /** Where the name of `[:name:]` at the front of t ends; the length of t if there is none. */
  function NameEnd(t: string): (n: nat)
    ensures n <= |t| && (n < |t| ==> 2 <= n && n + 2 <= |t|)
  {
    if |t| > 2 && t[0] == '[' && t[1] == ':' then ColonFrom(t, 2) else |t|
  }

  function ColonFrom(t: string, i: nat): (n: nat)
    requires i <= |t|
    ensures i <= n <= |t| && (n < |t| ==> n + 2 <= |t| && t[n] == ':' && t[n + 1] == ']')
    decreases |t| - i
  {
    if i + 1 >= |t| then |t| else if t[i] == ':' && t[i + 1] == ']' then i else ColonFrom(t, i + 1)
  }

  /** The named class that Go writes `[:name:]`; a `^` in front takes what lies outside it. */
  function Named(name: string): Item {
    var negated := name != "" && name[0] == '^';
    Item(negated, Ranges(if negated then name[1..] else name))
  }

  /** No ranges for a name that is not known. */
  function Ranges(name: string): seq<(char, char)> {
    match name
    case "alnum" => [('0', '9'), ('A', 'Z'), ('a', 'z')]
    case "alpha" => [('A', 'Z'), ('a', 'z')]
    case "ascii" => [('\0', '\U{7F}')]
    case "blank" => [('\t', '\t'), (' ', ' ')]
    case "cntrl" => [('\0', '\U{1F}'), ('\U{7F}', '\U{7F}')]
    case "digit" => [('0', '9')]
    case "graph" => [('!', '~')]
    case "lower" => [('a', 'z')]
    case "print" => [(' ', '~')]
    case "punct" => [('!', '/'), (':', '@'), ('[', '`'), ('{', '~')]
    case "space" => [('\t', '\r'), (' ', ' ')]
    case "upper" => [('A', 'Z')]
    case "word" => [('0', '9'), ('A', 'Z'), ('_', '_'), ('a', 'z')]
    case "xdigit" => [('0', '9'), ('A', 'F'), ('a', 'f')]
    case _ => []
  }

  /** Length of the class character at the front of t; 0 if there is none. */
  function CharLength(t: string): (n: nat)
    ensures n <= |t|
  {
    if t == "" then 0 else if t[0] != '\\' then 1 else if |t| >= 2 && Special(t[1]) then 2 else 0
  }

  function CharAt(t: string): char
    requires CharLength(t) > 0
  {
    t[CharLength(t) - 1]
  }

  /** Length of the character or range at the front of t; 0 if it is malformed or runs downwards. */
  function RangeLength(t: string): (n: nat)
    ensures n <= |t|
  {
    var n := CharLength(t);
    if n == 0 || !Dashed(t) then n
    else if CharLength(t[n + 1..]) == 0 || CharAt(t[n + 1..]) < CharAt(t) then 0
    else n + 1 + CharLength(t[n + 1..])
  }

  /** A dash that is not the last of its class follows the first character. */
  predicate Dashed(t: string) {
    var n := CharLength(t);
    n > 0 && |t| >= n + 2 && t[n] == '-' && t[n + 1] != ']'
  }

  function RangeItem(t: string): Item
    requires RangeLength(t) > 0
  {
    Item(false, [(CharAt(t), if Dashed(t) then CharAt(t[CharLength(t) + 1..]) else CharAt(t))])
  }

  function Postfix(atom: Re, rest: string): (r: Parsed)
    ensures r.Parsed? && |r.rest| <= |rest|
  {
    if rest != "" && rest[0] == '*' then Parsed(Star(atom), rest[1..])
    else if rest != "" && rest[0] == '?' then Parsed(Opt(atom), rest[1..])
    else Parsed(atom, rest)
  }

  /** The expression between `^` and `$`; Bad if the text is not of that form. */
  function ParseAnchored(text: string): Parsed {
    if |text| >= 2 && text[0] == '^' && text[|text| - 1] == '$' then
      var r := ParseCat(text[1..|text| - 1]);
      if r.Parsed? && r.rest == "" then r else Bad
    else Bad
  }

  /** s as a whole is in the language; `.` does not match a newline. */
  predicate Matches(re: Re, s: string)
    decreases re, |s|
  {
    match re
    case Eps => s == ""
    case Lit(c) => s == [c]
    case AnyChar => |s| == 1 && s[0] != '\n'
    case Class(negated, items) => |s| == 1 && (InClass(items, s[0]) != negated)
    case Cat(a, b) => exists i :: 0 <= i <= |s| && Matches(a, s[..i]) && Matches(b, s[i..])
    case Star(a) => s == "" || exists i :: 0 < i <= |s| && Matches(a, s[..i]) && Matches(re, s[i..])
    case Opt(a) => s == "" || Matches(a, s)
  }

  predicate InClass(items: seq<Item>, c: char) {
    exists i :: 0 <= i < |items| && (InRanges(items[i].ranges, c) != items[i].negated)
  }

  predicate InRanges(ranges: seq<(char, char)>, c: char) {
    exists i :: 0 <= i < |ranges| && ranges[i].0 <= c <= ranges[i].1
  }
}
