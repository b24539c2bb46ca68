/** Merges of a few lines, computed (internal/merge/merge.go, lines 33-143). */
module MergeExamples {
  import opened Lcs
  import opened Lines
  import opened Diff3
  import opened Merge
  import opened MergeLaws

  /** A nonempty line ended by its only newline. */
  ghost predicate FullLine(l: Line) {
    IsLine(l) && Ended(l)
  }

  lemma LinesAre(ls: seq<Line>)
    requires forall i :: 0 <= i < |ls| ==> FullLine(ls[i])
    ensures LinesOf(Join(ls)) == ls
  {
    JoinSplits(ls);
  }

  lemma JoinTwoThree(p: Line, q: Line, r: Line)
    ensures Join([q]) == q && Join([p, q]) == p + q && Join([p, q, r]) == p + q + r
  {
    JoinOne(p);
    JoinOne(q);
    JoinOne(r);
    JoinConcat([p], [q]);
    JoinConcat([p, q], [r]);
    assert [p] + [q] == [p, q] && [p, q] + [r] == [p, q, r];
  }

  /** Base gained p in front, theirs also r at the end; ours has neither. */
  function Lagging(p: Line, q: Line, r: Line): Inputs<Line> {
    InputsOf([p, q], [q], [p, q, r])
  }

  lemma LaggingMatches(p: Line, q: Line, r: Line)
    requires p != q
    ensures Lagging(p, q, r).ma == map[1 := 0] && Lagging(p, q, r).mb == map[0 := 0, 1 := 1]
  {
    var o, a, b := [p, q], [q], [p, q, r];
    assert LcsLen(o, a, 0, 1) == 0 && Trace(o, a, 2, 1) == map[];
    assert Trace(o, a, 1, 0) == map[1 := 0];
    assert Trace(o, b, 2, 2) == map[];
    assert Trace(o, b, 1, 1) == map[1 := 1];
  }

  lemma LaggingChunks(p: Line, q: Line, r: Line)
    requires p != q
    ensures Chunks([p, q], [q], [p, q, r]) == [Clean([]), Clean([q]), Clean([r])]
  {
    var t := Lagging(p, q, r);
    LaggingMatches(p, q, r);
    UnstableStep(t, Start());
    assert SyncFrom(t, Start(), 1) == Cursor(1, 0, 1);
    StableStep(t, Cursor(1, 0, 1));
    LastStep(t, Cursor(2, 1, 2));
  }

  lemma LaggingMerge(p: Line, q: Line, r: Line)
    requires FullLine(p) && FullLine(q) && FullLine(r) && p != q
    ensures MergeOf(p + q, q, p + q + r) == MergeResult(q + r, true, 0)
  {
    LinesAre([q]);
    LinesAre([p, q]);
    LinesAre([p, q, r]);
    JoinTwoThree(p, q, r);
    LaggingChunks(p, q, r);
    LaggingReport(q, r);
    assert |q| < |p + q| < |p + q + r|;
  }

  lemma LaggingReport(q: Line, r: Line)
    ensures Report([Clean([]), Clean([q]), Clean([r])]) == MergeResult(q + r, true, 0)
  {
    ShownCons(Clean([]), [Clean([q]), Clean([r])]);
    ShownCons(Clean([q]), [Clean([r])]);
    ShownCons(Clean([r]), []);
    var shown := [Clean([])] + ([Clean([q])] + ([Clean([r])] + []));
    assert shown == [Clean([]), Clean([q]), Clean([r])];
    assert ShownLines(shown) == [q, r];
    JoinTwoThree(q, r, r);
  }

  // --- a merge that does not hold when made again ---

  lemma PairMatches(p: Line, q: Line)
    requires p != q
    ensures MatchOf([q, q], [q]) == map[0 := 0]
    ensures MatchOf([q, q], [p, q, q]) == map[0 := 1, 1 := 2]
    ensures MatchOf([q, q], [p, q]) == map[1 := 1]
  {
    SingleMatch(q);
    DoubleMatch(p, q);
    ShiftedMatch(p, q);
  }

  lemma SingleMatch(q: Line)
    ensures MatchOf([q, q], [q]) == map[0 := 0]
  {
    assert Trace([q, q], [q], 1, 1) == map[];
  }

  lemma DoubleMatch(p: Line, q: Line)
    requires p != q
    ensures MatchOf([q, q], [p, q, q]) == map[0 := 1, 1 := 2]
  {
    var o, x := [q, q], [p, q, q];
    assert LcsLen(o, x, 1, 2) == 1 && LcsLen(o, x, 0, 1) == 2;
    assert LcsLen(o, x, 1, 1) == 1 && LcsLen(o, x, 1, 0) <= 1;
    assert Trace(o, x, 2, 3) == map[];
    assert Trace(o, x, 1, 2) == map[1 := 2];
    assert Trace(o, x, 0, 1) == map[0 := 1, 1 := 2];
  }

  lemma ShiftedMatch(p: Line, q: Line)
    requires p != q
    ensures MatchOf([q, q], [p, q]) == map[1 := 1]
  {
    var o, x := [q, q], [p, q];
    assert LcsLen(o, x, 2, 0) == 0 && LcsLen(o, x, 1, 1) == 1 && LcsLen(o, x, 1, 0) == 1;
    assert LcsLen(o, x, 1, 2) == 0 && LcsLen(o, x, 0, 1) == 1;
    assert Trace(o, x, 2, 2) == map[];
    assert Trace(o, x, 1, 1) == map[1 := 1];
    assert Trace(o, x, 1, 0) == map[1 := 1];
  }

  /** Ours dropped one of two equal lines; theirs gained a line in front of them. */
  lemma DroppedChunks(p: Line, q: Line)
    requires p != q
    ensures Chunks([q, q], [q], [p, q, q]) == [Clean([p]), Clean([q]), Clean([])]
  {
    var t := InputsOf([q, q], [q], [p, q, q]);
    PairMatches(p, q);
    UnstableStep(t, Start());
    assert SyncFrom(t, Start(), 0) == Cursor(0, 0, 1);
    assert t.o[0..0] == [] && t.a[0..0] == [] && t.b[0..1] == [p];
    StableStep(t, Cursor(0, 0, 1));
    UnstableStep(t, Cursor(1, 1, 2));
    assert SyncFrom(t, Cursor(1, 1, 2), 2) == Cursor(2, 1, 3);
    assert t.o[1..2] == [q] && t.a[1..1] == [] && t.b[2..3] == [q];
    LastStep(t, Cursor(2, 1, 3));
  }

  lemma RemergedChunks(p: Line, q: Line)
    requires p != q
    ensures Chunks([q, q], [p, q], [p, q, q]) == [Conflict([p], [q], [p, q]), Clean([q])]
  {
    var t := InputsOf([q, q], [p, q], [p, q, q]);
    PairMatches(p, q);
    UnstableStep(t, Start());
    assert SyncFrom(t, Start(), 1) == Cursor(1, 1, 2);
    assert t.o[0..1] == [q] && t.a[0..1] == [p] && t.b[0..2] == [p, q];
    StableStep(t, Cursor(1, 1, 2));
    LastStep(t, Cursor(2, 2, 3));
  }

  lemma MergeDrops(p: Line, q: Line)
    requires FullLine(p) && FullLine(q) && p != q
    ensures MergeOf(q + q, q, p + q + q) == MergeResult(p + q, true, 0)
  {
    LinesAre([q]);
    LinesAre([q, q]);
    LinesAre([p, q, q]);
    JoinTwoThree(q, q, q);
    JoinTwoThree(p, q, q);
    DroppedChunks(p, q);
    DroppedReport(p, q);
    assert |q| < |q + q| < |p + q + q|;
  }

  lemma MergeAgainConflicts(p: Line, q: Line)
    requires FullLine(p) && FullLine(q) && p != q
    ensures !FullMerge(q + q, p + q, p + q + q).clean
  {
    LinesAre([q, q]);
    LinesAre([p, q]);
    LinesAre([p, q, q]);
    JoinTwoThree(q, q, q);
    JoinTwoThree(p, q, q);
    RemergedChunks(p, q);
    RemergedReport(p, q);
  }

  lemma RemergedReport(p: Line, q: Line)
    ensures !Report([Conflict([p], [q], [p, q]), Clean([q])]).clean
  {
    ShownCons(Conflict([p], [q], [p, q]), [Clean([q])]);
    assert [Conflict([p], [q], [p, q])] + [Clean([q])] == [Conflict([p], [q], [p, q]), Clean([q])];
  }

  /** The two edits merge cleanly, but the result and theirs conflict over the same base. */
  lemma MergeDoesNotHold(p: Line, q: Line)
    requires FullLine(p) && FullLine(q) && p != q
    ensures MergeOf(q + q, q, p + q + q) == MergeResult(p + q, true, 0)
    ensures !MergeOf(q + q, p + q, p + q + q).clean
  {
    MergeDrops(p, q);
    MergeAgainConflicts(p, q);
    ShortCutsSound(q + q, p + q, p + q + q);
  }

  lemma DroppedReport(p: Line, q: Line)
    ensures Report([Clean([p]), Clean([q]), Clean([])]) == MergeResult(p + q, true, 0)
  {
    ShownCons(Clean([p]), [Clean([q]), Clean([])]);
    ShownCons(Clean([q]), [Clean([])]);
    ShownCons(Clean([]), []);
    var shown := [Clean([p])] + ([Clean([q])] + ([Clean([])] + []));
    assert shown == [Clean([p]), Clean([q]), Clean([])];
    assert ShownLines(shown) == [p, q];
    JoinTwoThree(p, q, q);
    JoinTwoThree(q, p, p);
  }
}
