/** Which cut the three-way alignment is, independently of how it is computed. */
module Diff3Laws {
  import opened Diff3
  import opened Sequences

  /** Every joint match still ahead in base is also ahead in ours and theirs. */
  ghost predicate Clear<T>(t: Inputs<T>, c: Cursor) {
    forall k :: k >= c.o && Joint(t, k) ==> UpTo(c, At(t, k))
  }

  /** No joint match in the base range [lo, hi). */
  ghost predicate NoJoint<T>(t: Inputs<T>, lo: nat, hi: nat) {
    forall k :: lo <= k < hi ==> !Joint(t, k)
  }

  /** A stable region is one jointly matched line; an unstable one is nonempty and holds none. */
  ghost predicate Right<T>(t: Inputs<T>, r: Region) {
    if r.stable then Agreed(t, r.from) && r.to == Diagonal(r.from)
    else r.from != r.to && UpTo(r.from, r.to) && NoJoint(t, r.from.o, r.to.o)
  }

  /** The regions tile the three texts in order from c, and no two unstable ones touch. */
  ghost predicate IsAlignment<T>(t: Inputs<T>, rs: seq<Region>, c: Cursor) {
    if rs == [] then c == End(t)
    else
      && rs[0].from == c
      && Right(t, rs[0])
      && (!rs[0].stable && |rs| > 1 ==> rs[1].stable)
      && IsAlignment(t, rs[1..], rs[0].to)
  }

  lemma StartClear<T>(t: Inputs<T>)
    ensures Clear(t, Start()) && UpTo(Start(), End(t))
  {
  }

  lemma ClearAfter<T>(t: Inputs<T>, k: nat)
    requires Valid(t) && Joint(t, k)
    ensures Clear(t, At(t, k)) && Clear(t, Diagonal(At(t, k)))
  {
  }

  /** The position test never turns down a joint match: the scan stops at the first one. */
  lemma {:induction false} SyncFirst<T>(t: Inputs<T>, c: Cursor, k: nat)
    requires Valid(t) && UpTo(c, End(t)) && Clear(t, c) && c.o <= k <= |t.o|
    ensures var d := SyncFrom(t, c, k);
            && NoJoint(t, k, d.o)
            && (if d.o == |t.o| then d == End(t) else Joint(t, d.o) && d == At(t, d.o))
            && Clear(t, d)
    decreases |t.o| - k
  {
    if k < |t.o| {
      if Joint(t, k) { ClearAfter(t, k); } else { SyncFirst(t, c, k + 1); }
    }
  }

  lemma {:induction false} AlignIsAlignment<T>(t: Inputs<T>, c: Cursor)
    requires Valid(t) && UpTo(c, End(t)) && Clear(t, c)
    ensures IsAlignment(t, Align(t, c), c)
    decreases Left(t, c)
  {
    if c.o < |t.o| {
      if Agreed(t, c) {
        ClearAfter(t, c.o);
        AlignIsAlignment(t, Diagonal(c));
      } else {
        var d := NextSync(t, c);
        SyncFirst(t, c, c.o);
        AlignIsAlignment(t, d);
      }
    }
  }

  /** The first region of any cut of that shape is the computed one. */
  lemma FirstRegion<T>(t: Inputs<T>, rs: seq<Region>, c: Cursor)
    requires Valid(t) && UpTo(c, End(t)) && Clear(t, c) && IsAlignment(t, rs, c) && rs != []
    ensures UpTo(rs[0].to, End(t)) && Clear(t, rs[0].to) && Left(t, rs[0].to) < Left(t, c)
    ensures Align(t, c) == [rs[0]] + Align(t, rs[0].to)
  {
    var d := rs[0].to;
    if rs[0].stable {
      ClearAfter(t, c.o);
    } else {
      SyncFirst(t, c, c.o);
      if |rs| > 1 { assert rs[1..][0] == rs[1] && Agreed(t, d); ClearAfter(t, d.o); }
    }
  }

  /** There is no other cut of that shape. */
  lemma {:induction false} AlignmentUnique<T>(t: Inputs<T>, rs: seq<Region>, c: Cursor)
    requires Valid(t) && UpTo(c, End(t)) && Clear(t, c) && IsAlignment(t, rs, c)
    ensures rs == Align(t, c)
    decreases Left(t, c)
  {
    if rs != [] {
      FirstRegion(t, rs, c);
      AlignmentUnique(t, rs[1..], rs[0].to);
      assert rs == [rs[0]] + rs[1..];
    }
  }

  /** The base lines shown as stable. */
  function StableLines(rs: seq<Region>): set<nat> {
    if rs == [] then {} else (if rs[0].stable then {rs[0].from.o} else {}) + StableLines(rs[1..])
  }

  function JointLines<T>(t: Inputs<T>): set<nat> {
    set k | k in t.ma && k in t.mb
  }

  lemma {:induction false} StableAreJoint<T>(t: Inputs<T>, rs: seq<Region>, c: Cursor)
    requires Valid(t) && UpTo(c, End(t)) && Clear(t, c) && IsAlignment(t, rs, c)
    ensures StableLines(rs) == set k | k in t.ma && k in t.mb && k >= c.o
    decreases Left(t, c)
  {
    if rs != [] {
      var d := rs[0].to;
      if rs[0].stable {
        ClearAfter(t, c.o);
      } else if |rs| > 1 {
        assert rs[1..][0] == rs[1];
        ClearAfter(t, d.o);
      }
      StableAreJoint(t, rs[1..], d);
      assert d.o >= c.o;
      forall k | k in t.ma && k in t.mb && k >= c.o && k !in StableLines(rs[1..])
        ensures rs[0].stable && k == c.o
      {
        assert Joint(t, k) && c.o <= k < d.o;
      }
    }
  }

  datatype Side = Base | Ours | Theirs

  function Text<T>(t: Inputs<T>, side: Side): seq<T> {
    match side case Base => t.o case Ours => t.a case Theirs => t.b
  }

  function Pos(c: Cursor, side: Side): nat {
    match side case Base => c.o case Ours => c.a case Theirs => c.b
  }

  /** The slices of one text, put back together in region order. */
  function Gather<T>(t: Inputs<T>, rs: seq<Region>, side: Side): seq<T>
    requires forall r :: r in rs ==> Fits(t, r)
  {
    if rs == [] then []
    else
      assert Fits(t, rs[0]);
      Text(t, side)[Pos(rs[0].from, side)..Pos(rs[0].to, side)] + Gather(t, rs[1..], side)
  }

  /** The regions partition base, ours and theirs: nothing is skipped or used twice. */
  lemma {:induction false} RegionsPartition<T>(t: Inputs<T>, c: Cursor, side: Side)
    requires Valid(t) && UpTo(c, End(t))
    ensures Gather(t, Align(t, c), side) == Text(t, side)[Pos(c, side)..]
    decreases Left(t, c)
  {
    var rs := Align(t, c);
    if rs != [] {
      var d := rs[0].to;
      if c.o < |t.o| {
        assert rs[1..] == Align(t, d);
        RegionsPartition(t, d, side);
      } else {
        assert rs[1..] == [];
      }
      Glue(Text(t, side), Pos(c, side), Pos(d, side));
    }
  }

  function Unstable(rs: seq<Region>): nat {
    if rs == [] then 0 else (if rs[0].stable then 0 else 1) + Unstable(rs[1..])
  }

  function Conflicts<T>(cs: seq<Chunk<T>>): nat {
    if cs == [] then 0 else (if cs[0].Conflict? then 1 else 0) + Conflicts(cs[1..])
  }

  lemma {:induction false} UnstableBound<T>(t: Inputs<T>, rs: seq<Region>, c: Cursor)
    requires Valid(t) && IsAlignment(t, rs, c)
    ensures Unstable(rs) <= |StableLines(rs)| + if rs != [] && rs[0].stable then 0 else 1
    ensures forall k :: k in StableLines(rs) ==> k >= c.o
  {
    if rs != [] {
      UnstableBound(t, rs[1..], rs[0].to);
      if rs[0].stable {
        assert rs[0].from.o !in StableLines(rs[1..]);
      } else if |rs| > 1 {
        assert rs[1..][0] == rs[1];
        assert StableLines(rs) == StableLines(rs[1..]);
      }
    }
  }

  lemma {:induction false} ConflictsAreUnstable<T>(t: Inputs<T>, rs: seq<Region>)
    requires forall r :: r in rs ==> Fits(t, r)
    ensures Conflicts(ChunksOf(t, rs)) <= Unstable(rs)
  {
    if rs != [] {
      ConflictsAreUnstable(t, rs[1..]);
      assert ChunksOf(t, rs)[1..] == ChunksOf(t, rs[1..]);
    }
  }

  lemma ConflictBound<T>(t: Inputs<T>)
    requires Valid(t) && IsAlignment(t, Align(t, Start()), Start())
    requires StableLines(Align(t, Start())) == JointLines(t)
    ensures Conflicts(ChunksFrom(t, Start())) <= |JointLines(t)| + 1
  {
    UnstableBound(t, Align(t, Start()), Start());
    ConflictsAreUnstable(t, Align(t, Start()));
  }

  lemma StableExact<T>(t: Inputs<T>)
    requires Valid(t) && IsAlignment(t, Align(t, Start()), Start())
    ensures StableLines(Align(t, Start())) == JointLines(t)
  {
    StartClear(t);
    StableAreJoint(t, Align(t, Start()), Start());
  }

  /** What diff3Chunks promises about its cut, for all texts. */
  lemma AlignmentExact<T>(o: seq<T>, a: seq<T>, b: seq<T>)
    ensures var t := InputsOf(o, a, b); var rs := Align(t, Start());
            && IsAlignment(t, rs, Start())
            && (forall other :: IsAlignment(t, other, Start()) ==> other == rs)
            && StableLines(rs) == JointLines(t)
            && (forall side :: Gather(t, rs, side) == Text(t, side))
            && Conflicts(Chunks(o, a, b)) <= |JointLines(t)| + 1
  {
    var t := InputsOf(o, a, b);
    var rs := Align(t, Start());
    StartClear(t);
    AlignIsAlignment(t, Start());
    forall other | IsAlignment(t, other, Start()) ensures other == rs {
      AlignmentUnique(t, other, Start());
    }
    forall side ensures Gather(t, rs, side) == Text(t, side) {
      RegionsPartition(t, Start(), side);
    }
    StableExact(t);
    ConflictBound(t);
  }

  // --- ours and theirs swapped ---

  function SwapCursor(c: Cursor): Cursor { Cursor(c.o, c.b, c.a) }

  function SwapInputs<T>(t: Inputs<T>): Inputs<T> { Inputs(t.o, t.b, t.a, t.mb, t.ma) }

  function SwapChunk<T>(c: Chunk<T>): Chunk<T> {
    match c
    case Clean(_) => c
    case Conflict(ours, base, theirs) => Conflict(theirs, base, ours)
  }

  function SwapChunks<T>(cs: seq<Chunk<T>>): seq<Chunk<T>> {
    if cs == [] then [] else [SwapChunk(cs[0])] + SwapChunks(cs[1..])
  }

  lemma {:induction false} SyncSwap<T>(t: Inputs<T>, c: Cursor, k: nat)
    requires Valid(t) && UpTo(c, End(t)) && c.o <= k <= |t.o|
    ensures SyncFrom(SwapInputs(t), SwapCursor(c), k) == SwapCursor(SyncFrom(t, c, k))
    decreases |t.o| - k
  {
    if k < |t.o| { SyncSwap(t, c, k + 1); }
  }

  lemma ResolveSwap<T>(o: seq<T>, a: seq<T>, b: seq<T>)
    ensures Resolve(o, b, a) == SwapChunk(Resolve(o, a, b))
  {
  }

  lemma SwapCons<T>(c: Chunk<T>, cs: seq<Chunk<T>>)
    ensures SwapChunks([c] + cs) == [SwapChunk(c)] + SwapChunks(cs)
  {
    assert ([c] + cs)[1..] == cs;
  }

  lemma {:induction false} ChunksSwap<T>(t: Inputs<T>, c: Cursor)
    requires Valid(t) && UpTo(c, End(t))
    ensures ChunksFrom(SwapInputs(t), SwapCursor(c)) == SwapChunks(ChunksFrom(t, c))
    decreases Left(t, c)
  {
    if c.o == |t.o| {
      SwapLast(t, c);
    } else if Agreed(t, c) {
      ChunksSwap(t, Diagonal(c));
      SwapStable(t, c);
    } else {
      ChunksSwap(t, NextSync(t, c));
      SwapUnstable(t, c);
    }
  }

  lemma SwapLast<T>(t: Inputs<T>, c: Cursor)
    requires Valid(t) && UpTo(c, End(t)) && c.o == |t.o|
    ensures ChunksFrom(SwapInputs(t), SwapCursor(c)) == SwapChunks(ChunksFrom(t, c))
  {
    LastStep(t, c);
    LastStep(SwapInputs(t), SwapCursor(c));
    if c.a < |t.a| || c.b < |t.b| {
      ResolveSwap([], t.a[c.a..], t.b[c.b..]);
      SwapCons(Resolve([], t.a[c.a..], t.b[c.b..]), []);
    }
  }

  lemma SwapStable<T>(t: Inputs<T>, c: Cursor)
    requires Valid(t) && UpTo(c, End(t)) && c.o < |t.o| && Agreed(t, c)
    requires ChunksFrom(SwapInputs(t), SwapCursor(Diagonal(c))) == SwapChunks(ChunksFrom(t, Diagonal(c)))
    ensures ChunksFrom(SwapInputs(t), SwapCursor(c)) == SwapChunks(ChunksFrom(t, c))
  {
    StableStep(t, c);
    StableStepSwapped(t, c);
    SwapCons(Clean([t.o[c.o]]), ChunksFrom(t, Diagonal(c)));
  }

  lemma StableStepSwapped<T>(t: Inputs<T>, c: Cursor)
    requires Valid(t) && UpTo(c, End(t)) && c.o < |t.o| && Agreed(t, c)
    ensures ChunksFrom(SwapInputs(t), SwapCursor(c)) ==
            [Clean([t.o[c.o]])] + ChunksFrom(SwapInputs(t), SwapCursor(Diagonal(c)))
  {
    assert Diagonal(SwapCursor(c)) == SwapCursor(Diagonal(c));
    SwapValid(t, c);
    StableStep(SwapInputs(t), SwapCursor(c));
  }

  lemma SwapValid<T>(t: Inputs<T>, c: Cursor)
    requires Valid(t) && UpTo(c, End(t))
    ensures Valid(SwapInputs(t)) && UpTo(SwapCursor(c), End(SwapInputs(t)))
    ensures c.o < |t.o| && Agreed(t, c) ==> Agreed(SwapInputs(t), SwapCursor(c))
  {
  }

  lemma SwapUnstable<T>(t: Inputs<T>, c: Cursor)
    requires Valid(t) && UpTo(c, End(t)) && c.o < |t.o| && !Agreed(t, c)
    requires ChunksFrom(SwapInputs(t), SwapCursor(NextSync(t, c))) == SwapChunks(ChunksFrom(t, NextSync(t, c)))
    ensures ChunksFrom(SwapInputs(t), SwapCursor(c)) == SwapChunks(ChunksFrom(t, c))
  {
    var d := NextSync(t, c);
    UnstableStep(t, c);
    UnstableStep(SwapInputs(t), SwapCursor(c));
    SyncSwap(t, c, c.o);
    ResolveSwap(t.o[c.o..d.o], t.a[c.a..d.a], t.b[c.b..d.b]);
    SwapCons(Resolve(t.o[c.o..d.o], t.a[c.a..d.a], t.b[c.b..d.b]), ChunksFrom(t, d));
  }
}
