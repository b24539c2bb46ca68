/** What Merge promises for all texts. */
module MergeLaws {
  import opened Lcs
  import opened Lines
  import opened Diff3
  import opened Diff3Laws
  import opened Merge
  import opened Sequences

  lemma ShownCons(c: Chunk<Line>, cs: seq<Chunk<Line>>)
    ensures ShownLines([c] + cs) == ChunkLines(c) + ShownLines(cs)
    ensures Conflicts([c] + cs) == (if c.Conflict? then 1 else 0) + Conflicts(cs)
  {
    assert ([c] + cs)[1..] == cs;
  }

  // --- line boundaries ---

  lemma MarkersAreLines()
    ensures IsLine(MARKER_OURS) && IsLine(MARKER_BASE) && IsLine(MARKER_MID) && IsLine(MARKER_END)
    ensures Ended(MARKER_OURS) && Ended(MARKER_BASE) && Ended(MARKER_MID) && Ended(MARKER_END)
  {
  }

  lemma ConcatWellFormed(x: seq<Line>, y: seq<Line>)
    requires WellFormed(x) && WellFormed(y) && (y == [] || AllEnded(x))
    ensures WellFormed(x + y)
    ensures AllEnded(x) && AllEnded(y) ==> AllEnded(x + y)
  {
  }

  lemma SliceWellFormed(x: seq<Line>, i: nat, j: nat)
    requires WellFormed(x) && i <= j <= |x|
    ensures WellFormed(x[i..j])
    ensures j < |x| ==> AllEnded(x[i..j])
  {
  }

  lemma TerminatedWellFormed(x: seq<Line>)
    requires WellFormed(x)
    ensures WellFormed(Terminated(x)) && AllEnded(Terminated(x))
  {
    if x != [] && !Ended(x[|x| - 1]) {
      SliceWellFormed(x, 0, |x| - 1);
      ConcatWellFormed(x[..|x| - 1], [x[|x| - 1] + "\n"]);
    }
  }

  lemma ConflictWellFormed(c: Chunk<Line>)
    requires c.Conflict? && WellFormed(c.ours) && WellFormed(c.base) && WellFormed(c.theirs)
    ensures WellFormed(ChunkLines(c)) && AllEnded(ChunkLines(c))
  {
    MarkersAreLines();
    var a, o, b := Terminated(c.ours), Terminated(c.base), Terminated(c.theirs);
    TerminatedWellFormed(c.ours);
    TerminatedWellFormed(c.base);
    TerminatedWellFormed(c.theirs);
    var upToBase := [MARKER_OURS] + a + [MARKER_BASE];
    assert WellFormed(upToBase) && AllEnded(upToBase) by {
      ConcatWellFormed([MARKER_OURS], a);
      ConcatWellFormed([MARKER_OURS] + a, [MARKER_BASE]);
    }
    var upToMid := upToBase + o + [MARKER_MID];
    assert WellFormed(upToMid) && AllEnded(upToMid) by {
      ConcatWellFormed(upToBase, o);
      ConcatWellFormed(upToBase + o, [MARKER_MID]);
    }
    ConcatWellFormed(upToMid, b);
    ConcatWellFormed(upToMid + b, [MARKER_END]);
  }

  lemma ResolvedWellFormed(o: seq<Line>, a: seq<Line>, b: seq<Line>)
    requires WellFormed(o) && WellFormed(a) && WellFormed(b)
    ensures WellFormed(ChunkLines(Resolve(o, a, b)))
    ensures AllEnded(o) && AllEnded(a) && AllEnded(b) ==> AllEnded(ChunkLines(Resolve(o, a, b)))
  {
    var c := Resolve(o, a, b);
    if c.Conflict? { ConflictWellFormed(c); }
  }

  ghost predicate LinesIn(t: Inputs<Line>) {
    Valid(t) && WellFormed(t.o) && WellFormed(t.a) && WellFormed(t.b)
  }

  /** The lines an unstable region shows; all newline-terminated when text remains after it. */
  lemma RegionWellFormed(t: Inputs<Line>, c: Cursor, d: Cursor)
    requires LinesIn(t) && UpTo(c, d) && UpTo(d, End(t))
    ensures var shown := ChunkLines(Resolve(t.o[c.o..d.o], t.a[c.a..d.a], t.b[c.b..d.b]));
            && WellFormed(shown)
            && (d.o < |t.o| && d.a < |t.a| && d.b < |t.b| ==> AllEnded(shown))
  {
    SliceWellFormed(t.o, c.o, d.o);
    SliceWellFormed(t.a, c.a, d.a);
    SliceWellFormed(t.b, c.b, d.b);
    ResolvedWellFormed(t.o[c.o..d.o], t.a[c.a..d.a], t.b[c.b..d.b]);
  }

  lemma NothingAfterEnd(t: Inputs<Line>)
    requires Valid(t)
    ensures ShownLines(ChunksFrom(t, End(t))) == []
  {
    LastStep(t, End(t));
  }

  /** No two lines are glued, whichever inputs lack a final newline. */
  lemma {:induction false} ShownWellFormed(t: Inputs<Line>, c: Cursor)
    requires LinesIn(t) && UpTo(c, End(t))
    ensures WellFormed(ShownLines(ChunksFrom(t, c)))
    decreases Left(t, c)
  {
    if c.o == |t.o| {
      LastStep(t, c);
      RegionWellFormed(t, c, End(t));
      SliceIsRest(t, c);
      ShownCons(Resolve([], t.a[c.a..], t.b[c.b..]), []);
    } else if Agreed(t, c) {
      ShownWellFormed(t, Diagonal(c));
      StableWellFormed(t, c);
    } else {
      ShownWellFormed(t, NextSync(t, c));
      UnstableWellFormed(t, c);
    }
  }

  lemma SliceIsRest(t: Inputs<Line>, c: Cursor)
    requires UpTo(c, End(t)) && c.o == |t.o|
    ensures t.o[c.o..|t.o|] == [] && t.a[c.a..|t.a|] == t.a[c.a..] && t.b[c.b..|t.b|] == t.b[c.b..]
  {
  }

  lemma StableWellFormed(t: Inputs<Line>, c: Cursor)
    requires LinesIn(t) && UpTo(c, End(t)) && c.o < |t.o| && Agreed(t, c)
    requires WellFormed(ShownLines(ChunksFrom(t, Diagonal(c))))
    ensures WellFormed(ShownLines(ChunksFrom(t, c)))
  {
    StableStep(t, c);
    var line := t.o[c.o];
    ShownCons(Clean([line]), ChunksFrom(t, Diagonal(c)));
    if !Ended(line) {
      assert Diagonal(c) == End(t);
      NothingAfterEnd(t);
    }
    ConcatWellFormed([line], ShownLines(ChunksFrom(t, Diagonal(c))));
  }

  lemma UnstableWellFormed(t: Inputs<Line>, c: Cursor)
    requires LinesIn(t) && UpTo(c, End(t)) && c.o < |t.o| && !Agreed(t, c)
    requires WellFormed(ShownLines(ChunksFrom(t, NextSync(t, c))))
    ensures WellFormed(ShownLines(ChunksFrom(t, c)))
  {
    var d := NextSync(t, c);
    UnstableStep(t, c);
    RegionWellFormed(t, c, d);
    var chunk := Resolve(t.o[c.o..d.o], t.a[c.a..d.a], t.b[c.b..d.b]);
    ShownCons(chunk, ChunksFrom(t, d));
    if d.o == |t.o| {
      SyncEnd(t, c, c.o);
      NothingAfterEnd(t);
    }
    ConcatWellFormed(ChunkLines(chunk), ShownLines(ChunksFrom(t, d)));
  }

  /** A scan that runs off base runs off all three texts. */
  lemma {:induction false} SyncEnd<T>(t: Inputs<T>, c: Cursor, k: nat)
    requires Valid(t) && UpTo(c, End(t)) && c.o <= k <= |t.o|
    ensures SyncFrom(t, c, k).o == |t.o| ==> SyncFrom(t, c, k) == End(t)
    decreases |t.o| - k
  {
    if k < |t.o| { SyncEnd(t, c, k + 1); }
  }

  /**
   * Splitting the rendered text gives back exactly the lines of the chunks: nothing is
   * glued, and every conflict marker is a line of its own.
   */
  lemma LineBoundaries(base: string, a: string, b: string)
    ensures LinesOf(FullMerge(base, a, b).merged) == ShownLines(Chunks(LinesOf(base), LinesOf(a), LinesOf(b)))
  {
    SplitJoins(base);
    SplitJoins(a);
    SplitJoins(b);
    var t := InputsOf(LinesOf(base), LinesOf(a), LinesOf(b));
    ShownWellFormed(t, Start());
    JoinSplits(ShownLines(ChunksFrom(t, Start())));
  }

  // --- symmetry ---

  lemma {:induction false} SwapKeepsCount(cs: seq<Chunk<Line>>)
    ensures Conflicts(SwapChunks(cs)) == Conflicts(cs)
    ensures Conflicts(cs) == 0 ==> ShownLines(SwapChunks(cs)) == ShownLines(cs)
  {
    if cs != [] {
      SwapKeepsCount(cs[1..]);
      ShownCons(SwapChunk(cs[0]), SwapChunks(cs[1..]));
    }
  }

  lemma FullMergeSymmetric(base: string, a: string, b: string)
    ensures var r, s := FullMerge(base, a, b), FullMerge(base, b, a);
            r.clean == s.clean && r.conflicts == s.conflicts && (r.clean ==> r.merged == s.merged)
  {
    var t := InputsOf(LinesOf(base), LinesOf(a), LinesOf(b));
    ChunksSwap(t, Start());
    SwapKeepsCount(ChunksFrom(t, Start()));
  }

  /** Swapping ours and theirs changes neither the verdict nor a clean result. */
  lemma MergeSymmetric(base: string, a: string, b: string)
    ensures var r, s := MergeOf(base, a, b), MergeOf(base, b, a);
            r.clean == s.clean && r.conflicts == s.conflicts && (r.clean ==> r.merged == s.merged)
  {
    FullMergeSymmetric(base, a, b);
  }

  // --- the short cuts agree with the full computation ---

  /** Ours is, and moves in step with, base or theirs. */
  ghost predicate InStep(t: Inputs<Line>, c: Cursor, withBase: bool) {
    && Valid(t) && UpTo(c, End(t))
    && if withBase then t.a == t.o && c.a == c.o && forall k :: k in t.ma ==> t.ma[k] == k
       else t.a == t.b && c.a == c.b && t.ma == t.mb
  }

  lemma {:induction false} SyncInStep(t: Inputs<Line>, c: Cursor, k: nat, withBase: bool)
    requires InStep(t, c, withBase) && c.o <= k <= |t.o|
    ensures InStep(t, SyncFrom(t, c, k), withBase)
    decreases |t.o| - k
  {
    if k < |t.o| { SyncInStep(t, c, k + 1, withBase); }
  }

  ghost predicate ShowsTheirs(t: Inputs<Line>, c: Cursor)
    requires Valid(t) && UpTo(c, End(t))
  {
    Conflicts(ChunksFrom(t, c)) == 0 && ShownLines(ChunksFrom(t, c)) == t.b[c.b..]
  }

  /** In step, every region resolves to the slice of theirs. */
  lemma {:induction false} TheirsWins(t: Inputs<Line>, c: Cursor, withBase: bool)
    requires InStep(t, c, withBase)
    ensures ShowsTheirs(t, c)
    decreases Left(t, c)
  {
    if c.o == |t.o| {
      TheirsWinsLast(t, c, withBase);
    } else if Agreed(t, c) {
      TheirsWins(t, Diagonal(c), withBase);
      TheirsWinsStable(t, c);
    } else {
      SyncInStep(t, c, c.o, withBase);
      TheirsWins(t, NextSync(t, c), withBase);
      TheirsWinsRegion(t, c, withBase);
    }
  }

  lemma TheirsWinsLast(t: Inputs<Line>, c: Cursor, withBase: bool)
    requires InStep(t, c, withBase) && c.o == |t.o|
    ensures ShowsTheirs(t, c)
  {
    LastStep(t, c);
    var chunk := Resolve([], t.a[c.a..], t.b[c.b..]);
    assert chunk == Clean(t.b[c.b..]);
    ShownCons(chunk, []);
  }

  lemma TheirsWinsStable(t: Inputs<Line>, c: Cursor)
    requires Valid(t) && UpTo(c, End(t)) && c.o < |t.o| && Agreed(t, c)
    requires ShowsTheirs(t, Diagonal(c))
    ensures ShowsTheirs(t, c)
  {
    StableStep(t, c);
    ShownCons(Clean([t.o[c.o]]), ChunksFrom(t, Diagonal(c)));
    StableLine(t, c);
  }

  lemma StableLine(t: Inputs<Line>, c: Cursor)
    requires Valid(t) && UpTo(c, End(t)) && c.o < |t.o| && Agreed(t, c)
    ensures c.b < |t.b| && [t.o[c.o]] + t.b[c.b + 1..] == t.b[c.b..]
  {
  }

  lemma TheirsWinsRegion(t: Inputs<Line>, c: Cursor, withBase: bool)
    requires InStep(t, c, withBase) && c.o < |t.o| && !Agreed(t, c)
    requires InStep(t, NextSync(t, c), withBase) && ShowsTheirs(t, NextSync(t, c))
    ensures ShowsTheirs(t, c)
  {
    var d := NextSync(t, c);
    UnstableStep(t, c);
    var chunk := Resolve(t.o[c.o..d.o], t.a[c.a..d.a], t.b[c.b..d.b]);
    assert chunk == Clean(t.b[c.b..d.b]);
    ShownCons(chunk, ChunksFrom(t, d));
    Glue(t.b, c.b, d.b);
  }

  lemma FullTheirsOnly(base: string, b: string)
    ensures FullMerge(base, base, b) == MergeResult(b, true, 0)
  {
    var t := InputsOf(LinesOf(base), LinesOf(base), LinesOf(b));
    TraceSelf(t.o, 0);
    TheirsWins(t, Start(), true);
    SplitJoins(b);
  }

  lemma FullSameEdit(base: string, a: string)
    ensures FullMerge(base, a, a) == MergeResult(a, true, 0)
  {
    var t := InputsOf(LinesOf(base), LinesOf(a), LinesOf(a));
    TheirsWins(t, Start(), false);
    SplitJoins(a);
  }

  /** The three short cuts refine the full computation: Merge is that computation. */
  lemma ShortCutsSound(base: string, a: string, b: string)
    ensures MergeOf(base, a, b) == FullMerge(base, a, b)
  {
    if a == b {
      FullSameEdit(base, a);
    } else if a == base {
      FullTheirsOnly(base, b);
    } else if b == base {
      FullTheirsOnly(base, a);
      FullMergeSymmetric(base, a, b);
    }
  }
}
