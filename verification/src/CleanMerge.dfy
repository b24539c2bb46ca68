/** What a clean merge keeps of both edits (internal/merge/merge.go, diff3Chunks and resolveChunk). */
module CleanMerge {
  import opened Lines
  import opened Diff3
  import opened Diff3Laws
  import opened RegionLaws
  import opened Merge
  import opened MergeLaws
  import opened Sequences

  // --- a merge that undoes both edits is never clean ---

  function Even(k: nat): Cursor { Cursor(k, k, k) }

  /** The first k lines of the three texts are the same. */
  ghost predicate CommonStart(t: Inputs<Line>, k: nat) {
    && k <= |t.o| && k <= |t.a| && k <= |t.b|
    && forall i :: 0 <= i < k ==> t.o[i] == t.a[i] == t.b[i]
  }

  /** On the trace, equal lines at an even cursor are jointly matched there. */
  lemma HeadMatched(t: Inputs<Line>, k: nat)
    requires UpTo(Even(k), End(t)) && OnTrace(t, Even(k)) && k < |t.o|
    ensures k < |t.a| && t.a[k] == t.o[k] ==> k in t.ma && t.ma[k] == k
    ensures k < |t.b| && t.b[k] == t.o[k] ==> k in t.mb && t.mb[k] == k
  {
    if k < |t.a| && t.a[k] == t.o[k] { TraceHead(t.o, t.a, k, k); }
    if k < |t.b| && t.b[k] == t.o[k] { TraceHead(t.o, t.b, k, k); }
  }

  lemma StartAgreed(t: Inputs<Line>, i: nat, k: nat)
    requires t == InputsOf(t.o, t.a, t.b) && CommonStart(t, k) && i < k && OnTrace(t, Even(i))
    ensures Agreed(t, Even(i))
  {
    HeadMatched(t, i);
  }

  lemma StartStep(t: Inputs<Line>, i: nat)
    requires Valid(t) && UpTo(Even(i), End(t)) && i < |t.o| && Agreed(t, Even(i)) && OnTrace(t, Even(i))
    ensures UpTo(Even(i + 1), End(t)) && OnTrace(t, Even(i + 1)) && Clear(t, Even(i + 1))
    ensures ChunksFrom(t, Even(i)) == [Clean([t.o[i]])] + ChunksFrom(t, Even(i + 1))
  {
    assert Diagonal(Even(i)) == Even(i + 1);
    StableStep(t, Even(i));
    OnTraceDiagonal(t, Even(i));
    ClearAfter(t, i);
  }

  /** A common start is shown as it is. */
  lemma {:induction false} StartShown(t: Inputs<Line>, i: nat, k: nat)
    requires t == InputsOf(t.o, t.a, t.b) && CommonStart(t, k) && i <= k && OnTrace(t, Even(i)) && Clear(t, Even(i))
    ensures OnTrace(t, Even(k)) && Clear(t, Even(k))
    ensures ShownLines(ChunksFrom(t, Even(i))) == t.o[i..k] + ShownLines(ChunksFrom(t, Even(k)))
    ensures Conflicts(ChunksFrom(t, Even(i))) == Conflicts(ChunksFrom(t, Even(k)))
    decreases k - i
  {
    if i < k {
      StartAgreed(t, i, k);
      StartStep(t, i);
      StartShown(t, i + 1, k);
      ShownCons(Clean([t.o[i]]), ChunksFrom(t, Even(i + 1)));
      OneMore(t.o, i, k, ShownLines(ChunksFrom(t, Even(k))));
    }
  }

  lemma OneMore(o: seq<Line>, i: nat, k: nat, rest: seq<Line>)
    requires i < k <= |o|
    ensures [o[i]] + (o[i + 1..k] + rest) == o[i..k] + rest
  {
  }

  /** k is where the three texts stop being the same, and not the end of all of them. */
  ghost predicate Parts(t: Inputs<Line>, k: nat) {
    && UpTo(Even(k), End(t)) && !(k == |t.o| && k == |t.a| && k == |t.b|)
    && (k < |t.o| && k < |t.a| && k < |t.b| ==> !(t.o[k] == t.a[k] == t.b[k]))
  }

  lemma {:induction false} PartingExists(t: Inputs<Line>, i: nat)
    requires CommonStart(t, i) && !(t.o == t.a && t.o == t.b)
    ensures exists k: nat :: CommonStart(t, k) && Parts(t, k)
    decreases |t.o| - i
  {
    if Parts(t, i) {
    } else if i < |t.o| {
      assert CommonStart(t, i + 1);
      PartingExists(t, i + 1);
    }
  }

  lemma NotAgreedAtParting(t: Inputs<Line>, k: nat)
    requires Valid(t) && Parts(t, k) && k < |t.o|
    ensures !Agreed(t, Even(k))
  {
  }

  /** The region at the parting shows nothing, or a line that base does not have there. */
  lemma PartingRegion(t: Inputs<Line>, k: nat, d: Cursor, shown: seq<Line>)
    requires Valid(t) && Parts(t, k) && k < |t.o| && OnTrace(t, Even(k))
    requires UpTo(Even(k), d) && UpTo(d, End(t)) && (d.o < |t.o| ==> Agreed(t, d))
    requires Resolve(t.o[k..d.o], t.a[k..d.a], t.b[k..d.b]) == Clean(shown)
    ensures shown != [] ==> shown[0] != t.o[k]
  {
    HeadMatched(t, k);
  }

  /** If it shows nothing, the next stable line is not the one base has at the parting. */
  lemma PartingGap(t: Inputs<Line>, k: nat, d: Cursor)
    requires Valid(t) && Parts(t, k) && k < |t.o| && OnTrace(t, Even(k))
    requires UpTo(Even(k), d) && UpTo(d, End(t)) && d.o < |t.o| && Agreed(t, d) && d != Even(k)
    requires Resolve(t.o[k..d.o], t.a[k..d.a], t.b[k..d.b]) == Clean([])
    ensures t.o[d.o] != t.o[k]
  {
    HeadMatched(t, k);
  }

  /** From the parting on, a merge without conflict shows something else than base. */
  lemma PartingShown(t: Inputs<Line>, k: nat)
    requires t == InputsOf(t.o, t.a, t.b) && Parts(t, k) && OnTrace(t, Even(k)) && Clear(t, Even(k))
    requires Conflicts(ChunksFrom(t, Even(k))) == 0
    ensures ShownLines(ChunksFrom(t, Even(k))) != t.o[k..]
  {
    var c := Even(k);
    if k == |t.o| {
      LastStep(t, c);
      ShownCons(Resolve([], t.a[k..], t.b[k..]), []);
    } else {
      NotAgreedAtParting(t, k);
      var d := NextSync(t, c);
      SyncFirst(t, c, k);
      UnstableStep(t, c);
      var chunk := Resolve(t.o[k..d.o], t.a[k..d.a], t.b[k..d.b]);
      ShownCons(chunk, ChunksFrom(t, d));
      PartingRegion(t, k, d, chunk.lines);
      if chunk.lines == [] { AfterGap(t, k, d); }
    }
  }

  lemma AfterGap(t: Inputs<Line>, k: nat, d: Cursor)
    requires Valid(t) && Parts(t, k) && k < |t.o| && OnTrace(t, Even(k)) && !Agreed(t, Even(k))
    requires UpTo(Even(k), d) && UpTo(d, End(t)) && (if d.o < |t.o| then Agreed(t, d) else d == End(t))
    requires Resolve(t.o[k..d.o], t.a[k..d.a], t.b[k..d.b]) == Clean([])
    ensures ShownLines(ChunksFrom(t, d)) != t.o[k..]
  {
    if d.o < |t.o| {
      PartingGap(t, k, d);
      StableStep(t, d);
      ShownCons(Clean([t.o[d.o]]), ChunksFrom(t, Diagonal(d)));
    } else {
      NothingAfterEnd(t);
    }
  }

  lemma MovesFrom(t: Inputs<Line>, k: nat)
    requires t == InputsOf(t.o, t.a, t.b) && CommonStart(t, k) && Parts(t, k)
    requires Conflicts(ChunksFrom(t, Start())) == 0
    ensures ShownLines(ChunksFrom(t, Start())) != t.o
  {
    StartClear(t);
    assert Even(0) == Start();
    StartShown(t, 0, k);
    PartingShown(t, k);
    DifferentRest(t.o, k, ShownLines(ChunksFrom(t, Even(k))));
  }

  lemma DifferentRest(o: seq<Line>, k: nat, rest: seq<Line>)
    requires k <= |o| && rest != o[k..]
    ensures o[0..k] + rest != o
  {
    assert (o[0..k] + rest)[k..] == rest;
  }

  /** At the level of lines. */
  lemma LinesMove(o: seq<Line>, a: seq<Line>, b: seq<Line>)
    requires Conflicts(Chunks(o, a, b)) == 0 && !(o == a && o == b)
    ensures ShownLines(Chunks(o, a, b)) != o
  {
    var t := InputsOf(o, a, b);
    PartingExists(t, 0);
    var k: nat :| CommonStart(t, k) && Parts(t, k);
    MovesFrom(t, k);
  }

  lemma FullMergeMoves(base: string, a: string, b: string)
    requires FullMerge(base, a, b).clean && !(a == base && b == base)
    ensures FullMerge(base, a, b).merged != base
  {
    SplitJoins(base);
    SplitJoins(a);
    SplitJoins(b);
    LineBoundaries(base, a, b);
    LinesMove(LinesOf(base), LinesOf(a), LinesOf(b));
  }

  /** A clean merge is the base exactly when neither side changed it: edits never cancel out. */
  lemma EditsNeverCancel(base: string, a: string, b: string)
    requires MergeOf(base, a, b).clean
    ensures MergeOf(base, a, b).merged == base <==> a == base && b == base
  {
    ShortCutsSound(base, a, b);
    if !(a == base && b == base) { FullMergeMoves(base, a, b); }
  }

  // --- every change is in the merge ---

  lemma AppendStep(x: seq<Line>, head: seq<Line>, tail: seq<Line>, y: seq<Line>, both: seq<Line>)
    requires x == head + tail && both == head + (tail + y)
    ensures both == x + y
  {
    Assoc(head, tail, y);
  }

  lemma AppendFront(head: Chunk<Line>, tail: seq<Chunk<Line>>, y: seq<Chunk<Line>>)
    requires ShownLines(tail + y) == ShownLines(tail) + ShownLines(y)
    ensures ShownLines([head] + (tail + y)) == ShownLines([head] + tail) + ShownLines(y)
  {
    ShownCons(head, tail);
    ShownCons(head, tail + y);
    AppendStep(ShownLines([head] + tail), ChunkLines(head), ShownLines(tail), ShownLines(y),
               ShownLines([head] + (tail + y)));
  }

  lemma FrontAndTail(x: seq<Chunk<Line>>, y: seq<Chunk<Line>>)
    requires x != []
    ensures x == [x[0]] + x[1..] && x + y == [x[0]] + (x[1..] + y)
  {
  }

  lemma {:induction false} ShownAppend(x: seq<Chunk<Line>>, y: seq<Chunk<Line>>)
    ensures ShownLines(x + y) == ShownLines(x) + ShownLines(y)
  {
    if x == [] {
      assert x + y == y;
    } else {
      ShownAppend(x[1..], y);
      AppendFront(x[0], x[1..], y);
      FrontAndTail(x, y);
    }
  }

  lemma {:induction false} ChunksOfAt(t: Inputs<Line>, rs: seq<Region>, i: nat)
    requires i < |rs| && forall r :: r in rs ==> Fits(t, r)
    ensures ChunksOf(t, rs) == ChunksOf(t, rs[..i]) + [ChunkOf(t, rs[i])] + ChunksOf(t, rs[i + 1..])
  {
    assert rs[0] in rs;
    if i == 0 {
      assert rs[..0] == [];
    } else {
      ChunksOfAt(t, rs[1..], i - 1);
      assert rs[..i][1..] == rs[1..][..i - 1] && rs[1..][i..] == rs[i + 1..];
      assert rs[..i][0] == rs[0] && ChunksOf(t, rs[..i]) == [ChunkOf(t, rs[0])] + ChunksOf(t, rs[1..][..i - 1]);
    }
  }

  /** Where the lines of region i start in the merged text. */
  function Offset(t: Inputs<Line>, rs: seq<Region>, i: nat): nat
    requires i <= |rs| && forall r :: r in rs ==> Fits(t, r)
  {
    |ShownLines(ChunksOf(t, rs[..i]))|
  }

  /** At its place, region i shows the lines of every side that changed it; a stable line is shown as it is. */
  ghost predicate ShowsChanges(t: Inputs<Line>, rs: seq<Region>, m: seq<Line>, i: nat)
    requires i < |rs| && forall r :: r in rs ==> Fits(t, r)
  {
    assert Fits(t, rs[i]);
    var o, a, b := Slice(t, rs[i], Base), Slice(t, rs[i], Ours), Slice(t, rs[i], Theirs);
    var from, to := Offset(t, rs, i), Offset(t, rs, i + 1);
    && from <= to <= |m|
    && (a != o ==> m[from..to] == a)
    && (b != o ==> m[from..to] == b)
    && (a == o && b == o ==> m[from..to] == o)
  }

  function Slice(t: Inputs<Line>, r: Region, side: Side): seq<Line>
    requires Fits(t, r)
  {
    Text(t, side)[Pos(r.from, side)..Pos(r.to, side)]
  }

  lemma ShownInParts(x: seq<Chunk<Line>>, chunk: Chunk<Line>, y: seq<Chunk<Line>>)
    ensures ShownLines(x + [chunk] + y) == ShownLines(x) + ChunkLines(chunk) + ShownLines(y)
    ensures ShownLines(x + [chunk]) == ShownLines(x) + ChunkLines(chunk)
  {
    ShownAppend(x + [chunk], y);
    ShownAppend(x, [chunk]);
    ShownCons(chunk, []);
    assert [chunk] + [] == [chunk];
  }

  lemma OffsetsSplit(t: Inputs<Line>, rs: seq<Region>, i: nat)
    requires i < |rs| && forall r :: r in rs ==> Fits(t, r)
    ensures Fits(t, rs[i])
    ensures ShownLines(ChunksOf(t, rs)) ==
            ShownLines(ChunksOf(t, rs[..i])) + ChunkLines(ChunkOf(t, rs[i])) + ShownLines(ChunksOf(t, rs[i + 1..]))
    ensures ShownLines(ChunksOf(t, rs[..i + 1])) == ShownLines(ChunksOf(t, rs[..i])) + ChunkLines(ChunkOf(t, rs[i]))
  {
    assert rs[i] in rs;
    var before, chunk, after := ChunksOf(t, rs[..i]), ChunkOf(t, rs[i]), ChunksOf(t, rs[i + 1..]);
    ChunksOfAt(t, rs, i);
    ShownInParts(before, chunk, after);
    ChunksOfAt(t, rs[..i + 1], i);
    assert rs[..i + 1][..i] == rs[..i] && rs[..i + 1][i + 1..] == [];
    assert before + [chunk] + [] == before + [chunk];
  }

  lemma RegionShown(t: Inputs<Line>, rs: seq<Region>, m: seq<Line>, i: nat)
    requires i < |rs| && (forall r :: r in rs ==> Fits(t, r)) && m == ShownLines(ChunksOf(t, rs))
    ensures Fits(t, rs[i]) && Offset(t, rs, i) <= Offset(t, rs, i + 1) <= |m|
    ensures m[Offset(t, rs, i)..Offset(t, rs, i + 1)] == ChunkLines(ChunkOf(t, rs[i]))
  {
    OffsetsSplit(t, rs, i);
    Middle(ShownLines(ChunksOf(t, rs[..i])), ChunkLines(ChunkOf(t, rs[i])), ShownLines(ChunksOf(t, rs[i + 1..])));
  }

  lemma Middle(x: seq<Line>, y: seq<Line>, z: seq<Line>)
    ensures |x| <= |x + y| <= |x + y + z| && (x + y + z)[|x|..|x + y|] == y
  {
  }

  lemma {:induction false} NoneConflicts(t: Inputs<Line>, rs: seq<Region>, i: nat)
    requires i < |rs| && (forall r :: r in rs ==> Fits(t, r)) && Conflicts(ChunksOf(t, rs)) == 0
    ensures Fits(t, rs[i]) && ChunkOf(t, rs[i]).Clean?
  {
    assert rs[0] in rs;
    assert ChunksOf(t, rs)[1..] == ChunksOf(t, rs[1..]);
    if i > 0 { NoneConflicts(t, rs[1..], i - 1); }
  }

  lemma ChangesShown(t: Inputs<Line>, rs: seq<Region>, m: seq<Line>, i: nat)
    requires Valid(t) && i < |rs| && (forall r :: r in rs ==> Fits(t, r)) && m == ShownLines(ChunksOf(t, rs))
    requires Conflicts(ChunksOf(t, rs)) == 0 && Right(t, rs[i])
    ensures ShowsChanges(t, rs, m, i)
  {
    RegionShown(t, rs, m, i);
    NoneConflicts(t, rs, i);
  }

  lemma {:induction false} RegionsRight(t: Inputs<Line>, rs: seq<Region>, c: Cursor, i: nat)
    requires IsAlignment(t, rs, c) && i < |rs|
    ensures Right(t, rs[i])
  {
    if i > 0 { RegionsRight(t, rs[1..], rs[0].to, i - 1); }
  }

  /** m, a merge of a and b over base, shows every change of either side where that change is. */
  ghost predicate HasBothEdits(base: string, a: string, b: string, m: string) {
    var t := InputsOf(LinesOf(base), LinesOf(a), LinesOf(b));
    forall i :: 0 <= i < |Align(t, Start())| ==> ShowsChanges(t, Align(t, Start()), LinesOf(m), i)
  }

  /** Both edits are in a clean merge: each region in which a side left base appears in order with that side's lines. */
  lemma BothEditsKept(base: string, a: string, b: string)
    requires MergeOf(base, a, b).clean
    ensures HasBothEdits(base, a, b, MergeOf(base, a, b).merged)
  {
    var t := InputsOf(LinesOf(base), LinesOf(a), LinesOf(b));
    ShortCutsSound(base, a, b);
    LineBoundaries(base, a, b);
    AlignmentExact(t.o, t.a, t.b);
    forall i | 0 <= i < |Align(t, Start())|
      ensures ShowsChanges(t, Align(t, Start()), LinesOf(MergeOf(base, a, b).merged), i)
    {
      RegionsRight(t, Align(t, Start()), Start(), i);
      ChangesShown(t, Align(t, Start()), LinesOf(MergeOf(base, a, b).merged), i);
    }
  }

  // --- how many conflicts ---

  /** The regions on which both sides left base, for different lines. */
  ghost function Fought(t: Inputs<Line>, rs: seq<Region>): set<int>
    requires forall r :: r in rs ==> Fits(t, r)
  {
    set i | 0 <= i < |rs| && InFight(t, rs, i)
  }

  ghost predicate InFight(t: Inputs<Line>, rs: seq<Region>, i: int)
    requires 0 <= i < |rs| && forall r :: r in rs ==> Fits(t, r)
  {
    assert rs[i] in rs;
    var o, a, b := Slice(t, rs[i], Base), Slice(t, rs[i], Ours), Slice(t, rs[i], Theirs);
    !rs[i].stable && a != o && b != o && a != b
  }

  lemma {:induction false} FoughtCounted(t: Inputs<Line>, rs: seq<Region>)
    requires forall r :: r in rs ==> Fits(t, r)
    ensures Conflicts(ChunksOf(t, rs)) == |Fought(t, rs)|
  {
    if rs == [] {
      assert Fought(t, rs) == {};
    } else {
      var k := |rs| - 1;
      FoughtCounted(t, rs[..k]);
      LastChunk(t, rs);
      LastFought(t, rs);
      CountLast(ChunksOf(t, rs[..k]), ChunkOf(t, rs[k]));
    }
  }

  lemma LastChunk(t: Inputs<Line>, rs: seq<Region>)
    requires rs != [] && forall r :: r in rs ==> Fits(t, r)
    ensures Fits(t, rs[|rs| - 1])
    ensures ChunksOf(t, rs) == ChunksOf(t, rs[..|rs| - 1]) + [ChunkOf(t, rs[|rs| - 1])]
  {
    var k := |rs| - 1;
    assert rs[k] in rs;
    ChunksOfAt(t, rs, k);
    assert rs[k + 1..] == [];
    assert ChunksOf(t, rs[..k]) + [ChunkOf(t, rs[k])] + [] == ChunksOf(t, rs[..k]) + [ChunkOf(t, rs[k])];
  }

  lemma LastFought(t: Inputs<Line>, rs: seq<Region>)
    requires rs != [] && forall r :: r in rs ==> Fits(t, r)
    ensures Fits(t, rs[|rs| - 1])
    ensures var k := |rs| - 1;
            && k !in Fought(t, rs[..k])
            && Fought(t, rs) == Fought(t, rs[..k]) + if ChunkOf(t, rs[k]).Conflict? then {k} else {}
  {
    var k := |rs| - 1;
    assert rs[k] in rs;
    assert InFight(t, rs, k) <==> ChunkOf(t, rs[k]).Conflict?;
    forall i | 0 <= i < k ensures InFight(t, rs, i) <==> InFight(t, rs[..k], i) {
      assert rs[..k][i] == rs[i];
    }
  }

  lemma {:induction false} CountLast(cs: seq<Chunk<Line>>, c: Chunk<Line>)
    ensures Conflicts(cs + [c]) == Conflicts(cs) + if c.Conflict? then 1 else 0
  {
    if cs == [] {
      assert [] + [c] == [c] && [c][1..] == [];
    } else {
      CountLast(cs[1..], c);
      assert (cs + [c])[1..] == cs[1..] + [c];
    }
  }

  /** The count is the number of regions fought over, and a merge is clean exactly when there is none. */
  lemma ConflictsCounted(base: string, a: string, b: string)
    ensures var t := InputsOf(LinesOf(base), LinesOf(a), LinesOf(b)); var r := MergeOf(base, a, b);
            r.conflicts == |Fought(t, Align(t, Start()))| && (r.clean <==> Fought(t, Align(t, Start())) == {})
  {
    var t := InputsOf(LinesOf(base), LinesOf(a), LinesOf(b));
    ShortCutsSound(base, a, b);
    FoughtCounted(t, Align(t, Start()));
  }
}
