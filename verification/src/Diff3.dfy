/**
 * Three-way alignment (internal/merge/merge.go: diff3Chunks, nextSyncPoint, resolveChunk).
 *
 * The walk over base, ours and theirs is specified by Align, which cuts the three texts
 * into regions; Diff3Laws says which cut that is.
 */
module Diff3 {
  import opened Lcs
  import opened Sequences

  datatype Chunk<T> =
    | Clean(lines: seq<T>)
    | Conflict(ours: seq<T>, base: seq<T>, theirs: seq<T>)

  /** A position in base, ours and theirs: the loop's oi, ai, bi. */
  datatype Cursor = Cursor(o: nat, a: nat, b: nat)

  datatype Region = Region(stable: bool, from: Cursor, to: Cursor)

  /** The three texts and the two match maps from base. */
  datatype Inputs<T> = Inputs(o: seq<T>, a: seq<T>, b: seq<T>, ma: Matching, mb: Matching)

  function Start(): Cursor { Cursor(0, 0, 0) }

  function End<T>(t: Inputs<T>): Cursor { Cursor(|t.o|, |t.a|, |t.b|) }

  predicate UpTo(c: Cursor, d: Cursor) {
    c.o <= d.o && c.a <= d.a && c.b <= d.b
  }

  function Diagonal(c: Cursor): Cursor { Cursor(c.o + 1, c.a + 1, c.b + 1) }

  ghost predicate Valid<T>(t: Inputs<T>) {
    Matches(t.o, t.a, t.ma, 0, 0) && Matches(t.o, t.b, t.mb, 0, 0)
  }

  /** Base line k is matched on both sides. */
  predicate Joint<T>(t: Inputs<T>, k: nat) {
    k in t.ma && k in t.mb
  }

  function At<T>(t: Inputs<T>, k: nat): Cursor
    requires Joint(t, k)
  {
    Cursor(k, t.ma[k], t.mb[k])
  }

  predicate Agreed<T>(t: Inputs<T>, c: Cursor) {
    Joint(t, c.o) && At(t, c.o) == c
  }

  /** The first acceptable match at or after base line k, or the ends of the texts. */
  function SyncFrom<T>(t: Inputs<T>, c: Cursor, k: nat): (d: Cursor)
    requires Valid(t) && UpTo(c, End(t)) && c.o <= k <= |t.o|
    ensures UpTo(c, d) && UpTo(d, End(t)) && k <= d.o
    ensures d.o < |t.o| ==> Agreed(t, d)
    decreases |t.o| - k
  {
    if k == |t.o| then End(t)
    else if Joint(t, k) && t.ma[k] >= c.a && t.mb[k] >= c.b then At(t, k)
    else SyncFrom(t, c, k + 1)
  }

  function NextSync<T>(t: Inputs<T>, c: Cursor): Cursor
    requires Valid(t) && UpTo(c, End(t))
  {
    SyncFrom(t, c, c.o)
  }

  /** What is left of the three texts; a step may leave one of them as it is. */
  function Left<T>(t: Inputs<T>, c: Cursor): nat
    requires UpTo(c, End(t))
  {
    |t.o| - c.o + (|t.a| - c.a) + (|t.b| - c.b)
  }

  predicate Fits<T>(t: Inputs<T>, r: Region) {
    UpTo(r.from, r.to) && UpTo(r.to, End(t)) && (r.stable ==> r.from.o < |t.o|)
  }

  function Align<T>(t: Inputs<T>, c: Cursor): (rs: seq<Region>)
    requires Valid(t) && UpTo(c, End(t))
    ensures forall r :: r in rs ==> Fits(t, r)
    decreases Left(t, c)
  {
    if c.o < |t.o| then
      if Agreed(t, c) then
        [Region(true, c, Diagonal(c))] + Align(t, Diagonal(c))
      else
        var d := NextSync(t, c);
        [Region(false, c, d)] + Align(t, d)
    else if c.a < |t.a| || c.b < |t.b| then
      [Region(false, c, End(t))]
    else
      []
  }

  /**
   * One region decided. A side that differs from base wins over one that does not;
   * two sides that differ from base and from each other conflict.
   */
  function Resolve<T(==)>(o: seq<T>, a: seq<T>, b: seq<T>): (c: Chunk<T>)
    ensures c.Conflict? <==> a != o && b != o && a != b
    ensures c.Conflict? ==> c.ours == a && c.base == o && c.theirs == b
    ensures c.Clean? && a != o ==> c.lines == a
    ensures c.Clean? && b != o ==> c.lines == b
    ensures a == o && b == o ==> c.lines == o
  {
    if a == o && b == o then Clean(o)
    else if a == o then Clean(b)
    else if b == o then Clean(a)
    else if a == b then Clean(a)
    else Conflict(a, o, b)
  }

  function ChunkOf<T(==)>(t: Inputs<T>, r: Region): Chunk<T>
    requires Fits(t, r)
  {
    if r.stable then Clean([t.o[r.from.o]])
    else Resolve(t.o[r.from.o..r.to.o], t.a[r.from.a..r.to.a], t.b[r.from.b..r.to.b])
  }

  function ChunksOf<T(==)>(t: Inputs<T>, rs: seq<Region>): seq<Chunk<T>>
    requires forall r :: r in rs ==> Fits(t, r)
  {
    if rs == [] then [] else [ChunkOf(t, rs[0])] + ChunksOf(t, rs[1..])
  }

  function InputsOf<T(==)>(o: seq<T>, a: seq<T>, b: seq<T>): (t: Inputs<T>)
    ensures Valid(t)
  {
    MatchOptimal(o, a);
    MatchOptimal(o, b);
    Inputs(o, a, b, MatchOf(o, a), MatchOf(o, b))
  }

  function Chunks<T(==)>(o: seq<T>, a: seq<T>, b: seq<T>): seq<Chunk<T>> {
    ChunksFrom(InputsOf(o, a, b), Start())
  }

  method NextSyncPoint<T>(t: Inputs<T>, oi: nat, ai: nat, bi: nat) returns (k: nat, aj: nat, bj: nat)
    requires Valid(t) && UpTo(Cursor(oi, ai, bi), End(t))
    ensures Cursor(k, aj, bj) == NextSync(t, Cursor(oi, ai, bi))
  {
    k := oi;
    while k < |t.o|
      invariant oi <= k <= |t.o|
      invariant NextSync(t, Cursor(oi, ai, bi)) == SyncFrom(t, Cursor(oi, ai, bi), k)
    {
      if k in t.ma && k in t.mb && t.ma[k] >= ai && t.mb[k] >= bi {
        return k, t.ma[k], t.mb[k];
      }
      k := k + 1;
    }
    return |t.o|, |t.a|, |t.b|;
  }

  function ChunksFrom<T(==)>(t: Inputs<T>, c: Cursor): seq<Chunk<T>>
    requires Valid(t) && UpTo(c, End(t))
  {
    ChunksOf(t, Align(t, c))
  }

  lemma StableStep<T>(t: Inputs<T>, c: Cursor)
    requires Valid(t) && UpTo(c, End(t)) && c.o < |t.o| && Agreed(t, c)
    ensures ChunksFrom(t, c) == [Clean([t.o[c.o]])] + ChunksFrom(t, Diagonal(c))
  {
    assert Align(t, c)[1..] == Align(t, Diagonal(c));
  }

  lemma UnstableStep<T>(t: Inputs<T>, c: Cursor)
    requires Valid(t) && UpTo(c, End(t)) && c.o < |t.o| && !Agreed(t, c)
    ensures var d := NextSync(t, c);
            ChunksFrom(t, c) == [Resolve(t.o[c.o..d.o], t.a[c.a..d.a], t.b[c.b..d.b])] + ChunksFrom(t, d)
  {
    assert Align(t, c)[1..] == Align(t, NextSync(t, c));
  }

  lemma LastStep<T>(t: Inputs<T>, c: Cursor)
    requires Valid(t) && UpTo(c, End(t)) && c.o == |t.o|
    ensures ChunksFrom(t, c) ==
            if c.a < |t.a| || c.b < |t.b| then [Resolve([], t.a[c.a..], t.b[c.b..])] else []
  {
    if c.a < |t.a| || c.b < |t.b| {
      assert t.o[c.o..|t.o|] == [] && t.a[c.a..|t.a|] == t.a[c.a..] && t.b[c.b..|t.b|] == t.b[c.b..];
      assert Align(t, c) == [Region(false, c, End(t))];
      assert ChunksOf(t, Align(t, c)[1..]) == [];
    }
  }

  method Diff3Chunks<T(==)>(o: seq<T>, a: seq<T>, b: seq<T>) returns (chunks: seq<Chunk<T>>)
    ensures chunks == Chunks(o, a, b)
  {
    var ma := MatchIndex(o, a);
    var mb := MatchIndex(o, b);
    chunks := Diff3Loop(Inputs(o, a, b, ma, mb));
  }

  /** chunks are those of the regions before c. */
  ghost predicate Emitted<T>(t: Inputs<T>, chunks: seq<Chunk<T>>, c: Cursor) {
    && Valid(t) && UpTo(c, End(t))
    && ChunksFrom(t, Start()) == chunks + ChunksFrom(t, c)
  }

  lemma EmittedStable<T>(t: Inputs<T>, chunks: seq<Chunk<T>>, c: Cursor)
    requires Emitted(t, chunks, c) && c.o < |t.o| && Agreed(t, c)
    ensures Emitted(t, chunks + [Clean([t.o[c.o]])], Diagonal(c)) && Left(t, Diagonal(c)) < Left(t, c)
  {
    StableStep(t, c);
    Shift(chunks, Clean([t.o[c.o]]), ChunksFrom(t, Diagonal(c)));
  }

  lemma EmittedUnstable<T>(t: Inputs<T>, chunks: seq<Chunk<T>>, c: Cursor, d: Cursor)
    requires Emitted(t, chunks, c) && c.o < |t.o| && !Agreed(t, c) && d == NextSync(t, c)
    ensures Emitted(t, chunks + [Resolve(t.o[c.o..d.o], t.a[c.a..d.a], t.b[c.b..d.b])], d) && Left(t, d) < Left(t, c)
  {
    UnstableStep(t, c);
    Shift(chunks, Resolve(t.o[c.o..d.o], t.a[c.a..d.a], t.b[c.b..d.b]), ChunksFrom(t, d));
    LessLeft(t, c, d);
  }

  lemma LessLeft<T>(t: Inputs<T>, c: Cursor, d: Cursor)
    requires UpTo(c, d) && UpTo(d, End(t)) && c != d
    ensures Left(t, d) < Left(t, c)
  {
  }

  lemma EmittedNone<T>(t: Inputs<T>)
    requires Valid(t)
    ensures Emitted(t, [], Start())
  {
  }

  lemma EmittedAll<T>(t: Inputs<T>, chunks: seq<Chunk<T>>, c: Cursor)
    requires Emitted(t, chunks, c) && c.o == |t.o|
    ensures ChunksFrom(t, Start()) ==
            if c.a < |t.a| || c.b < |t.b| then chunks + [Resolve([], t.a[c.a..], t.b[c.b..])] else chunks
  {
    LastStep(t, c);
  }

  /** The cursor loop of diff3Chunks, on the match maps it starts from. */
  method Diff3Loop<T(==)>(t: Inputs<T>) returns (chunks: seq<Chunk<T>>)
    requires Valid(t)
    ensures chunks == ChunksFrom(t, Start())
  {
    chunks := [];
    var oi: nat, ai: nat, bi: nat := 0, 0, 0;
    EmittedNone(t);
    while oi < |t.o|
      invariant Emitted(t, chunks, Cursor(oi, ai, bi))
      decreases Left(t, Cursor(oi, ai, bi))
    {
      chunks, oi, ai, bi := Turn(t, chunks, oi, ai, bi);
    }
    chunks := LastRegion(t, chunks, oi, ai, bi);
  }

  /** One turn of the loop: a stable line, or the region up to the next sync point. */
  method Turn<T(==)>(t: Inputs<T>, chunks: seq<Chunk<T>>, oi: nat, ai: nat, bi: nat)
    returns (chunks': seq<Chunk<T>>, oi': nat, ai': nat, bi': nat)
    requires Emitted(t, chunks, Cursor(oi, ai, bi)) && oi < |t.o|
    ensures Emitted(t, chunks', Cursor(oi', ai', bi'))
    ensures Left(t, Cursor(oi', ai', bi')) < Left(t, Cursor(oi, ai, bi))
  {
    if oi in t.ma && t.ma[oi] == ai && oi in t.mb && t.mb[oi] == bi {
      EmittedStable(t, chunks, Cursor(oi, ai, bi));
      return chunks + [Clean([t.o[oi]])], oi + 1, ai + 1, bi + 1;
    }
    var k, aj, bj := NextSyncPoint(t, oi, ai, bi);
    EmittedUnstable(t, chunks, Cursor(oi, ai, bi), Cursor(k, aj, bj));
    return chunks + [Resolve(t.o[oi..k], t.a[ai..aj], t.b[bi..bj])], k, aj, bj;
  }

  /** What is left of ours and theirs once base is used up. */
  method LastRegion<T(==)>(t: Inputs<T>, chunks: seq<Chunk<T>>, oi: nat, ai: nat, bi: nat)
    returns (all: seq<Chunk<T>>)
    requires Emitted(t, chunks, Cursor(oi, ai, bi)) && oi == |t.o|
    ensures all == ChunksFrom(t, Start())
  {
    EmittedAll(t, chunks, Cursor(oi, ai, bi));
    all := chunks;
    if ai < |t.a| || bi < |t.b| {
      all := all + [Resolve([], t.a[ai..], t.b[bi..])];
    }
  }
}
