/**
 * Histories in which clients that only hold old copies undo what others did
 * (internal/runner/worktree.go, lines 153-205).
 */
module StaleClient {
  import opened Options
  import opened Ledger
  import opened Lines
  import opened MergeExamples
  import opened Decision
  import opened History
  import opened OneFile

  /** Client one holds version x; the hub and every other client hold nothing yet. */
  function FirstWorld(x: Content): World {
    World(map["one" := map[FILE := x]], map[], map[], map[], map[], map[])
  }

  function FirstBoard(x: Content): Board {
    Board(None, None, None, 0, map["one" := x], map[])
  }

  lemma FirstGood(x: Content)
    ensures Initial(FirstWorld(x)) && Good(FirstWorld(x)) && BoardOf(FirstWorld(x)) == FirstBoard(x)
  {
    InitialInv(FirstWorld(x));
    assert LedgerOf(FirstWorld(x)) == EMPTY;
  }

  /** The turns are a legal history from a first world, and the hub ends with the given version. */
  ghost predicate HubEnds(x: Content, turns: seq<Turn>, hub: Option<Content>) {
    && Initial(FirstWorld(x)) && AllLegal(FirstWorld(x), EventsOf(turns))
    && Get(Play(FirstWorld(x), EventsOf(turns)).hub, FILE) == hub
  }

  // --- what single runs do to the board ---

  /** The client, the hub and the ledger end at x. */
  function Live(b: Board, c: ClientId, x: Content): Board {
    Board(Some(x), Some(FileEntry(Sum(x), b.gen + 1)), None, b.gen + 1, b.locals[c := x], b.cursors[c := b.gen + 1])
  }

  /** The file ends deleted, with the given hash in its tombstone. */
  function Gone(b: Board, c: ClientId, last: Hash): Board {
    Board(None, None, Some(Tombstone(b.gen + 1, last)), b.gen + 1, b.locals - {c}, b.cursors[c := b.gen + 1])
  }

  lemma NewFile(b: Board, c: ClientId, x: Content)
    requires Get(b.locals, c) == Some(x) && b.hub == None && b.entry == None && b.tomb == None
    ensures Movable(b, Runs(c)) && Move(b, Runs(c)) == Live(b, c, x)
  {
  }

  lemma FirstPull(b: Board, c: ClientId, x: Content, gen: int)
    requires c !in b.locals && b.hub == Some(x) && b.entry == Some(FileEntry(Sum(x), gen)) && gen > EnvAt(b, c).cursor
    ensures Movable(b, Runs(c)) && Move(b, Runs(c)) == Live(b, c, x)
  {
  }

  /** The hub is as recorded and the client's copy differs: it is pushed, edited or merely old. */
  lemma CopyPushed(b: Board, c: ClientId, x: Content, y: Content, gen: int)
    requires x != y && Get(b.locals, c) == Some(x) && b.hub == Some(y) && b.entry == Some(FileEntry(Sum(y), gen))
    ensures Movable(b, Runs(c)) && Move(b, Runs(c)) == Live(b, c, x)
  {
  }

  lemma Deletion(b: Board, c: ClientId, x: Content, gen: int)
    requires c !in b.locals && b.hub == Some(x) && b.entry == Some(FileEntry(Sum(x), gen)) && gen <= EnvAt(b, c).cursor
    ensures Movable(b, Runs(c)) && Move(b, Runs(c)) == Gone(b, c, Sum(x))
  {
  }

  /** A copy of a deleted file: the guard removes it if the tombstone names it, else it comes back. */
  lemma StaleCopy(b: Board, c: ClientId, x: Content, t: Tombstone)
    requires Get(b.locals, c) == Some(x) && b.hub == None && b.entry == None && b.tomb == Some(t)
    ensures Movable(b, Runs(c))
    ensures Move(b, Runs(c)) == if t.lastHash == Sum(x) then Gone(b, c, NoHash) else Live(b, c, x)
  {
  }

  /** Two versions that merge cleanly over the recorded one: the merge goes to both sides. */
  lemma Merged(b: Board, c: ClientId, x: Content, y: Content, m: Content)
    requires Get(b.locals, c) == Some(x) && b.hub == Some(y) && x != y
    requires b.entry.Some? && b.entry.value.hash != Sum(x) && b.entry.value.hash != Sum(y)
    requires MergedBy(EnvAt(b, c), CellOn(b, c)) == Some(m)
    ensures Movable(b, Runs(c)) && Move(b, Runs(c)) == Live(b, c, m)
  {
    assert EditsOf(EnvAt(b, c), CellOn(b, c)) == WriteMerged(m);
    assert Choose(EnvAt(b, c), CellOn(b, c)) == WriteMerged(m);
  }

  /** A tracked file gone from both sides: its entry goes, and no tombstone comes. */
  lemma Forgotten(b: Board, c: ClientId)
    requires c !in b.locals && b.hub == None && b.entry.Some? && b.tomb == None
    ensures Movable(b, Runs(c))
    ensures Move(b, Runs(c)) == Board(None, None, None, b.gen + 1, b.locals, b.cursors[c := b.gen + 1])
  {
    assert b.locals - {c} == b.locals;
  }

  /** A run that deletes the hub's copy and stops before it is saved. */
  lemma CutDeletion(b: Board, c: ClientId, x: Content, gen: int)
    requires c !in b.locals && b.hub == Some(x) && b.entry == Some(FileEntry(Sum(x), gen)) && gen <= EnvAt(b, c).cursor
    ensures Movable(b, Stops(c, 1)) && Move(b, Stops(c, 1)) == b.(hub := None)
  {
    assert b.locals - {c} == b.locals;
  }

  // --- two clients share a file ---

  const SHARED: seq<Turn> := [Runs("one"), Runs("two")]

  function OneBoard(x: Content): Board {
    Live(FirstBoard(x), "one", x)
  }

  /** Both clients and the hub hold x; client two synced last. */
  function SharedBoard(x: Content): Board {
    Live(OneBoard(x), "two", x)
  }

  lemma Share(x: Content)
    ensures Played([FirstBoard(x), OneBoard(x), SharedBoard(x)], SHARED)
  {
    NewFile(FirstBoard(x), "one", x);
    FirstPull(OneBoard(x), "two", x, 1);
  }

  /** A story that goes on from the shared file, read off after n of its turns. */
  lemma ReadOff(x: Content, boards: seq<Board>, turns: seq<Turn>, n: nat)
    requires Played(boards, turns) && boards[0] == SharedBoard(x) && n <= |turns|
    ensures HubEnds(x, SHARED + turns[..n], boards[n].hub)
    ensures BoardOf(Play(FirstWorld(x), EventsOf(SHARED + turns[..n]))) == boards[n]
  {
    var all, story := [FirstBoard(x), OneBoard(x)] + boards[..n + 1], SHARED + turns[..n];
    FirstGood(x);
    Share(x);
    PrefixPlayed(boards, turns, n);
    assert all[..3] == [FirstBoard(x), OneBoard(x), SharedBoard(x)] && story[..2] == SHARED;
    assert all[2..] == boards[..n + 1] && story[2..] == turns[..n];
    PlayedJoin(all, story, 2);
    BoardFaithful(FirstWorld(x), all, story);
  }

  // --- an old copy comes after an edit ---

  function OldCopyStory(y: Content): seq<Turn> {
    [Edits("one", Some(y)), Runs("one"), Runs("two")]
  }

  /**
   * For any two versions: client one's edit y reaches the hub, and then client two, which has
   * edited nothing, puts x back.
   */
  lemma OldCopyUndoesEdit(x: Content, y: Content)
    requires x != y
    ensures HubEnds(x, SHARED + OldCopyStory(y)[..2], Some(y))
    ensures HubEnds(x, SHARED + OldCopyStory(y)[..3], Some(x))
  {
    var b0 := SharedBoard(x);
    var b1 := Move(b0, Edits("one", Some(y)));
    var b2 := Live(b1, "one", y);
    CopyPushed(b1, "one", y, x, 2);
    CopyPushed(b2, "two", x, y, 3);
    var boards := [b0, b1, b2, Live(b2, "two", x)];
    assert Played(boards, OldCopyStory(y));
    ReadOff(x, boards, OldCopyStory(y), 2);
    ReadOff(x, boards, OldCopyStory(y), 3);
  }

  // --- the guard forgets ---

  const DELETION_STORY: seq<Turn> := [Runs("three"), Edits("three", None), Runs("three"), Runs("one"), Runs("two")]

  function DeletionBoards(x: Content): seq<Board> {
    var b0 := SharedBoard(x);
    var b1 := Live(b0, "three", x);
    var b2 := b1.(locals := b1.locals - {"three"});
    var b3 := Gone(b2, "three", Sum(x));
    var b4 := Gone(b3, "one", NoHash);
    [b0, b1, b2, b3, b4, Live(b4, "two", x)]
  }

  lemma ThirdPull(x: Content)
    ensures Played(DeletionBoards(x)[..4][..2], DELETION_STORY[..3][..1])
  {
    FirstPull(DeletionBoards(x)[0], "three", x, 2);
  }

  lemma DeletionMade(x: Content)
    ensures Played(DeletionBoards(x)[..4], DELETION_STORY[..3])
  {
    var boards := DeletionBoards(x);
    ThirdPull(x);
    Deletion(boards[2], "three", x, 3);
    PlayedJoin(boards[..4], DELETION_STORY[..3], 1);
  }

  lemma DeletionForgotten(x: Content)
    ensures Played(DeletionBoards(x)[3..], DELETION_STORY[3..])
  {
    StaleCopy(DeletionBoards(x)[3], "one", x, Tombstone(4, Sum(x)));
    StaleCopy(DeletionBoards(x)[4], "two", x, Tombstone(5, NoHash));
  }

  /**
   * Three clients share a file and client three deletes it. Client one's copy is removed by
   * the guard, which forgets the version; client two's copy then brings the file back.
   */
  lemma DeletionUndone(x: Content)
    ensures HubEnds(x, SHARED + DELETION_STORY[..3], None) && HubEnds(x, SHARED + DELETION_STORY[..4], None)
    ensures HubEnds(x, SHARED + DELETION_STORY[..5], Some(x))
  {
    var boards := DeletionBoards(x);
    DeletionMade(x);
    DeletionForgotten(x);
    PlayedJoin(boards, DELETION_STORY, 3);
    ReadOff(x, boards, DELETION_STORY, 3);
    ReadOff(x, boards, DELETION_STORY, 4);
    ReadOff(x, boards, DELETION_STORY, 5);
  }

  // --- deletions that are never recorded ---

  const UNRECORDED_STORY: seq<Turn> := [Edits("one", None), EditsHub(None), Runs("one"), Runs("two")]

  /**
   * A file is deleted by client one and on the hub. Client one's run finds it gone on both
   * sides and records nothing, so client two, which has edited nothing, brings it back.
   */
  lemma UnrecordedDeletionUndone(x: Content)
    ensures HubEnds(x, SHARED + UNRECORDED_STORY[..3], None)
    ensures HubEnds(x, SHARED + UNRECORDED_STORY[..4], Some(x))
  {
    var b0 := SharedBoard(x);
    var b1 := b0.(locals := b0.locals - {"one"});
    var b2 := b1.(hub := None);
    var b3 := Board(None, None, None, 3, b2.locals, b2.cursors["one" := 3]);
    Forgotten(b2, "one");
    NewFile(b3, "two", x);
    var boards := [b0, b1, b2, b3, Live(b3, "two", x)];
    assert Played(boards, UNRECORDED_STORY);
    ReadOff(x, boards, UNRECORDED_STORY, 3);
    ReadOff(x, boards, UNRECORDED_STORY, 4);
  }

  const CUT_STORY: seq<Turn> := [Edits("two", None), Stops("two", 1), Runs("two"), Runs("one")]

  /**
   * Client two deletes a file, and its run stops after taking it off the hub; it runs again,
   * in full. The deletion is in no record, and client one, which has edited nothing, brings
   * the file back.
   */
  lemma CutDeletionUndone(x: Content)
    ensures HubEnds(x, SHARED + CUT_STORY[..3], None)
    ensures HubEnds(x, SHARED + CUT_STORY[..4], Some(x))
  {
    var b0 := SharedBoard(x);
    var b1 := b0.(locals := b0.locals - {"two"});
    var b2 := b1.(hub := None);
    var b3 := Board(None, None, None, 3, b2.locals, b2.cursors["two" := 3]);
    CutDeletion(b1, "two", x, 2);
    Forgotten(b2, "two");
    NewFile(b3, "one", x);
    var boards := [b0, b1, b2, b3, Live(b3, "one", x)];
    assert Played(boards, CUT_STORY);
    ReadOff(x, boards, CUT_STORY, 3);
    ReadOff(x, boards, CUT_STORY, 4);
  }

  const UNCUT_STORY: seq<Turn> := [Edits("two", None), Runs("two"), Runs("one")]

  /** Had it not stopped, the deletion would have held. */
  lemma UncutDeletionHolds(x: Content)
    ensures HubEnds(x, SHARED + UNCUT_STORY[..3], None)
  {
    var b0 := SharedBoard(x);
    var b1 := b0.(locals := b0.locals - {"two"});
    var b2 := Gone(b1, "two", Sum(x));
    Deletion(b1, "two", x, 2);
    StaleCopy(b2, "one", x, Tombstone(3, Sum(x)));
    var boards := [b0, b1, b2, Gone(b2, "one", NoHash)];
    assert Played(boards, UNCUT_STORY);
    ReadOff(x, boards, UNCUT_STORY, 3);
  }

  // --- renumbering undoes a deletion ---

  const RENUMBER_STORY: seq<Turn> := [Edits("one", None), Runs("one")]

  /**
   * Client one syncs a file and client two pulls it, which renumbers it. When client one then
   * deletes the file, its run takes it for one it never had and pulls it back.
   */
  lemma RenumberingUndoesDeletion(x: Content)
    ensures HubEnds(x, SHARED + RENUMBER_STORY[..2], Some(x))
    ensures Get(LocalOf(Play(FirstWorld(x), EventsOf(SHARED + RENUMBER_STORY[..2])), "one"), FILE) == Some(x)
  {
    var b0 := SharedBoard(x);
    var b1 := b0.(locals := b0.locals - {"one"});
    FirstPull(b1, "one", x, 2);
    var boards := [b0, b1, Live(b1, "one", x)];
    assert Played(boards, RENUMBER_STORY);
    ReadOff(x, boards, RENUMBER_STORY, 2);
    LocalShown(Play(FirstWorld(x), EventsOf(SHARED + RENUMBER_STORY[..2])), "one");
  }

  lemma LocalShown(w: World, c: ClientId)
    ensures Get(BoardOf(w).locals, c) == Get(LocalOf(w, c), FILE)
  {
  }

  // --- a merge with an old copy undoes an edit ---

  function MergeStory(p: Line, q: Line, r: Line): seq<Turn> {
    [Edits("one", Some(p + q)), Runs("one"), EditsHub(Some(p + q + r)), Runs("two")]
  }

  /** A clean merge goes to both sides. */
  lemma OldCopyMerged(b: Board, c: ClientId, p: Line, q: Line, r: Line, gen: int)
    requires FullLine(p) && FullLine(q) && FullLine(r) && p != q && IsText(q) && IsText(p + q + r)
    requires Get(b.locals, c) == Some(q) && b.hub == Some(p + q + r) && b.entry == Some(FileEntry(Sum(p + q), gen))
    ensures Movable(b, Runs(c)) && Move(b, Runs(c)) == Live(b, c, q + r)
  {
    LaggingMerge(p, q, r);
    assert |q| < |p + q| < |p + q + r|;
    Merged(b, c, q, p + q + r, q + r);
  }

  function MergeBoards(p: Line, q: Line, r: Line): seq<Board> {
    var b0 := SharedBoard(q);
    var b1 := b0.(locals := b0.locals["one" := p + q]);
    var b2 := Live(b1, "one", p + q);
    var b3 := b2.(hub := Some(p + q + r));
    [b0, b1, b2, b3, Live(b3, "two", q + r)]
  }

  lemma EditSynced(p: Line, q: Line, r: Line)
    requires FullLine(p)
    ensures Played(MergeBoards(p, q, r)[..3], MergeStory(p, q, r)[..2])
  {
    assert |q| < |p + q|;
    CopyPushed(MergeBoards(p, q, r)[1], "one", p + q, q, 2);
  }

  lemma MergedIn(p: Line, q: Line, r: Line)
    requires FullLine(p) && FullLine(q) && FullLine(r) && p != q && IsText(q) && IsText(p + q + r)
    ensures Played(MergeBoards(p, q, r)[2..], MergeStory(p, q, r)[2..])
  {
    OldCopyMerged(MergeBoards(p, q, r)[3], "two", p, q, r, 3);
  }

  /**
   * Client one puts a line in front and syncs; somebody appends a line on the hub; client two,
   * which has edited nothing, merges its old copy in: client one's line is gone.
   */
  lemma OldCopyMergesAway(p: Line, q: Line, r: Line)
    requires FullLine(p) && FullLine(q) && FullLine(r) && p != q && IsText(q) && IsText(p + q + r)
    ensures HubEnds(q, SHARED + MergeStory(p, q, r)[..3], Some(p + q + r))
    ensures HubEnds(q, SHARED + MergeStory(p, q, r)[..4], Some(q + r))
  {
    var boards := MergeBoards(p, q, r);
    EditSynced(p, q, r);
    MergedIn(p, q, r);
    PlayedJoin(boards, MergeStory(p, q, r), 2);
    ReadOff(q, boards, MergeStory(p, q, r), 3);
    ReadOff(q, boards, MergeStory(p, q, r), 4);
  }

  /** At the texts a, b and c, each a line of its own. */
  lemma OldCopyMergesAwayExample()
    ensures var a, b, c := "a\n", "b\n", "c\n"; HubEnds(b, SHARED + MergeStory(a, b, c)[..4], Some(b + c))
  {
    SampleLines("a\n", "b\n", "c\n");
    OldCopyMergesAway("a\n", "b\n", "c\n");
  }

  lemma SampleLines(a: Line, b: Line, c: Line)
    requires a == "a\n" && b == "b\n" && c == "c\n"
    ensures FullLine(a) && FullLine(b) && FullLine(c) && a != b && IsText(b) && IsText(a + b + c)
  {
    assert a[0] != b[0];
    assert a + b + c == "a\nb\nc\n";
  }
}
