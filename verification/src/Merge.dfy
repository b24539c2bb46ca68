/** Line-based three-way merge of texts (internal/merge/merge.go, Merge). */
module Merge {
  import opened Lines
  import opened Diff3
  import opened Sequences
  import Diff3Laws

  datatype MergeResult = MergeResult(merged: string, clean: bool, conflicts: nat)

  const MARKER_OURS: string := "<<<<<<< ours\n"
  const MARKER_BASE: string := "||||||| base\n"
  const MARKER_MID: string := "=======\n"
  const MARKER_END: string := ">>>>>>> theirs\n"

  /** The slice with its last line newline-terminated, as ensureNL leaves it. */
  function Terminated(ls: seq<Line>): seq<Line> {
    if ls == [] || Ended(ls[|ls| - 1]) then ls else ls[..|ls| - 1] + [ls[|ls| - 1] + "\n"]
  }

  /** The lines one chunk shows. */
  function ChunkLines(c: Chunk<Line>): seq<Line> {
    match c
    case Clean(lines) => lines
    case Conflict(ours, base, theirs) =>
      [MARKER_OURS] + Terminated(ours) + [MARKER_BASE] + Terminated(base)
      + [MARKER_MID] + Terminated(theirs) + [MARKER_END]
  }

  function ShownLines(cs: seq<Chunk<Line>>): seq<Line> {
    if cs == [] then [] else ChunkLines(cs[0]) + ShownLines(cs[1..])
  }

  function Report(cs: seq<Chunk<Line>>): MergeResult {
    var n := Diff3Laws.Conflicts(cs);
    MergeResult(Join(ShownLines(cs)), n == 0, n)
  }

  /** The full computation, without the short cuts. */
  function FullMerge(base: string, a: string, b: string): MergeResult {
    Report(Chunks(LinesOf(base), LinesOf(a), LinesOf(b)))
  }

  function MergeOf(base: string, a: string, b: string): MergeResult {
    if a == b then MergeResult(a, true, 0)
    else if a == base then MergeResult(b, true, 0)
    else if b == base then MergeResult(a, true, 0)
    else FullMerge(base, a, b)
  }

  method WriteLines(sb: string, lines: seq<Line>) returns (r: string)
    ensures r == sb + Join(lines)
  {
    r := sb;
    for i := 0 to |lines|
      invariant r + Join(lines[i..]) == sb + Join(lines)
    {
      assert lines[i..][1..] == lines[i + 1..];
      r := r + lines[i];
    }
  }

  lemma JoinOne(l: Line)
    ensures Join([l]) == l
  {
    assert [l][1..] == [];
  }

  lemma TerminatedJoin(ls: seq<Line>)
    ensures Join(Terminated(ls)) ==
            Join(ls) + if ls == [] || Ended(ls[|ls| - 1]) then "" else "\n"
  {
    if ls != [] && !Ended(ls[|ls| - 1]) {
      var init, last := ls[..|ls| - 1], ls[|ls| - 1];
      assert ls == init + [last];
      JoinConcat(init, [last]);
      JoinConcat(init, [last + "\n"]);
      JoinOne(last);
      JoinOne(last + "\n");
      Assoc(Join(init), last, "\n");
    }
  }

  /** One slice followed by ensureNL. */
  method WriteTerminated(sb: string, lines: seq<Line>) returns (r: string)
    ensures r == sb + Join(Terminated(lines))
  {
    TerminatedJoin(lines);
    r := WriteLines(sb, lines);
    if |lines| != 0 && !Ended(lines[|lines| - 1]) {
      r := r + "\n";
    }
  }

  /** Text appended after text that shows some lines shows the longer list. */
  lemma Extend(sb: string, shown: seq<Line>, more: seq<Line>)
    ensures (sb + Join(shown)) + Join(more) == sb + Join(shown + more)
  {
    JoinConcat(shown, more);
    Assoc(sb, Join(shown), Join(more));
  }

  method WriteLine(sb: string, ghost start: string, ghost shown: seq<Line>, line: Line) returns (r: string)
    requires sb == start + Join(shown)
    ensures r == start + Join(shown + [line])
  {
    r := sb + line;
    JoinOne(line);
    Extend(start, shown, [line]);
  }

  /** Lines as text, with a newline at the end unless there are none. */
  function ClosedText(ls: seq<Line>): string {
    Join(ls) + if ls == [] || Ended(ls[|ls| - 1]) then "" else "\n"
  }

  /** A conflict as the reader sees it. */
  function BlockText(ours: seq<Line>, base: seq<Line>, theirs: seq<Line>): string {
    "<<<<<<< ours\n" + (ClosedText(ours) + ("||||||| base\n" + (ClosedText(base)
    + ("=======\n" + (ClosedText(theirs) + ">>>>>>> theirs\n")))))
  }

  lemma LineThen(l: Line, rest: seq<Line>)
    ensures Join([l] + rest) == l + Join(rest)
  {
    assert ([l] + rest)[1..] == rest;
  }

  lemma SliceThen(ls: seq<Line>, rest: seq<Line>)
    ensures Join(Terminated(ls) + rest) == ClosedText(ls) + Join(rest)
  {
    JoinConcat(Terminated(ls), rest);
    TerminatedJoin(ls);
  }

  lemma SevenParts(a: seq<Line>, b: seq<Line>, c: seq<Line>, d: seq<Line>, e: seq<Line>, f: seq<Line>, g: seq<Line>)
    ensures a + b + c + d + e + f + g == a + (b + (c + (d + (e + (f + g)))))
  {
    Assoc(a + b + c + d + e, f, g);
    Assoc(a + b + c + d, e, f + g);
    Assoc(a + b + c, d, e + (f + g));
    Assoc(a + b, c, d + (e + (f + g)));
    Assoc(a, b, c + (d + (e + (f + g))));
  }

  lemma BlockLines(ours: seq<Line>, base: seq<Line>, theirs: seq<Line>)
    ensures ChunkLines(Conflict(ours, base, theirs)) ==
            [MARKER_OURS] + (Terminated(ours) + ([MARKER_BASE] + (Terminated(base)
            + ([MARKER_MID] + (Terminated(theirs) + [MARKER_END])))))
  {
    SevenParts([MARKER_OURS], Terminated(ours), [MARKER_BASE], Terminated(base),
               [MARKER_MID], Terminated(theirs), [MARKER_END]);
  }

  /** The block's lines read as the markers with ours, base and theirs between them, in that order. */
  lemma BlockReads(ours: seq<Line>, base: seq<Line>, theirs: seq<Line>)
    ensures Join(ChunkLines(Conflict(ours, base, theirs))) == BlockText(ours, base, theirs)
  {
    var last := Terminated(theirs) + [MARKER_END];
    var middle := Terminated(base) + ([MARKER_MID] + last);
    BlockLines(ours, base, theirs);
    SliceThen(theirs, [MARKER_END]);
    JoinOne(MARKER_END);
    LineThen(MARKER_MID, last);
    SliceThen(base, [MARKER_MID] + last);
    LineThen(MARKER_BASE, middle);
    SliceThen(ours, [MARKER_BASE] + middle);
    LineThen(MARKER_OURS, Terminated(ours) + ([MARKER_BASE] + middle));
  }

  method WriteMarkerBlock(sb: string, ours: seq<Line>, base: seq<Line>, theirs: seq<Line>) returns (r: string)
    ensures r == sb + BlockText(ours, base, theirs)
    ensures r == sb + Join(ChunkLines(Conflict(ours, base, theirs)))
  {
    BlockReads(ours, base, theirs);
    ghost var a, o, b := Terminated(ours), Terminated(base), Terminated(theirs);
    r := WriteLine(sb, sb, [], MARKER_OURS);
    r := WriteTerminated(r, ours);
    Extend(sb, [MARKER_OURS], a);
    r := WriteLine(r, sb, [MARKER_OURS] + a, MARKER_BASE);
    r := WriteTerminated(r, base);
    Extend(sb, [MARKER_OURS] + a + [MARKER_BASE], o);
    r := WriteLine(r, sb, [MARKER_OURS] + a + [MARKER_BASE] + o, MARKER_MID);
    r := WriteTerminated(r, theirs);
    Extend(sb, [MARKER_OURS] + a + [MARKER_BASE] + o + [MARKER_MID], b);
    r := WriteLine(r, sb, [MARKER_OURS] + a + [MARKER_BASE] + o + [MARKER_MID] + b, MARKER_END);
  }

  method Merge(base: string, a: string, b: string) returns (r: MergeResult)
    ensures r == MergeOf(base, a, b)
  {
    if a == b { return MergeResult(a, true, 0); }
    if a == base { return MergeResult(b, true, 0); }
    if b == base { return MergeResult(a, true, 0); }
    var oLines := SplitLines(base);
    var aLines := SplitLines(a);
    var bLines := SplitLines(b);
    var chunks := Diff3Chunks(oLines, aLines, bLines);
    r := RenderChunks(chunks);
  }

  method RenderChunks(chunks: seq<Chunk<Line>>) returns (r: MergeResult)
    ensures r == Report(chunks)
  {
    var sb, conflicts: nat := "", 0;
    ghost var shown: seq<Line> := [];
    for i := 0 to |chunks|
      invariant sb == Join(shown)
      invariant shown + ShownLines(chunks[i..]) == ShownLines(chunks)
      invariant conflicts + Diff3Laws.Conflicts(chunks[i..]) == Diff3Laws.Conflicts(chunks)
    {
      var chunk := chunks[i];
      ShowNext(chunks, i, shown);
      sb := WriteChunk(sb, chunk);
      JoinConcat(shown, ChunkLines(chunk));
      shown := shown + ChunkLines(chunk);
      if chunk.Conflict? {
        conflicts := conflicts + 1;
      }
    }
    assert shown + ShownLines(chunks[|chunks|..]) == shown;
    r := MergeResult(sb, conflicts == 0, conflicts);
  }

  lemma ShowNext(chunks: seq<Chunk<Line>>, i: nat, shown: seq<Line>)
    requires i < |chunks|
    ensures shown + ShownLines(chunks[i..]) == shown + ChunkLines(chunks[i]) + ShownLines(chunks[i + 1..])
    ensures Diff3Laws.Conflicts(chunks[i..]) ==
            (if chunks[i].Conflict? then 1 else 0) + Diff3Laws.Conflicts(chunks[i + 1..])
  {
    assert chunks[i..][1..] == chunks[i + 1..];
  }

  method WriteChunk(sb: string, chunk: Chunk<Line>) returns (r: string)
    ensures r == sb + Join(ChunkLines(chunk))
  {
    match chunk {
      case Clean(lines) =>
        r := WriteLines(sb, lines);
      case Conflict(ours, base, theirs) =>
        r := WriteMarkerBlock(sb, ours, base, theirs);
    }
  }
}
