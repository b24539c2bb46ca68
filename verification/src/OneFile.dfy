/**
 * Histories over a single file, played on a small board: what the hub, the ledger and each
 * client hold of it. Every move of the board is the event of the full model.
 */
module OneFile {
  import opened Options
  import opened Ledger
  import opened LedgerStore
  import opened Decision
  import opened Trails
  import StopLaws
  import opened LoopLaws
  import opened EditLaws
  import opened Worktree
  import opened History
  import HistoryLaws

  const FILE: Path := "a"

  datatype Turn =
    | Runs(client: ClientId)
    | Stops(client: ClientId, operations: nat)
    | Edits(client: ClientId, content: Option<Content>)
    | EditsHub(content: Option<Content>)

  datatype Board = Board(
    hub: Option<Content>, entry: Option<FileEntry>, tomb: Option<Tombstone>, gen: int,
    locals: map<ClientId, Content>, cursors: map<ClientId, int>)

  /** A plain run of one client over the one file, with no garbage collected. */
  function RunOf(c: ClientId): Event {
    Run(RunOptions(c, "20260101-000000", false, false, false), [FILE], Finished({}))
  }

  /** The same run, stopped after some of the file's operations. */
  function StoppedRun(c: ClientId, operations: nat): Event {
    Run(RunOf(c).o, [FILE], InLoop(0, operations))
  }

  function EventOf(turn: Turn): Event {
    match turn
    case Runs(c) => RunOf(c)
    case Stops(c, n) => StoppedRun(c, n)
    case Edits(c, content) => EditLocal(c, FILE, content)
    case EditsHub(content) => EditHub(FILE, content)
  }

  function EventsOf(turns: seq<Turn>): seq<Event> {
    if turns == [] then [] else [EventOf(turns[0])] + EventsOf(turns[1..])
  }

  function BoardOf(w: World): Board {
    var l := LedgerOf(w);
    Board(Get(w.hub, FILE), Get(l.files, FILE), Get(l.tombstones, FILE), l.generation,
          map c | c in w.locals && FILE in w.locals[c] :: w.locals[c][FILE], l.clients)
  }

  /** Nothing but the one file anywhere. */
  ghost predicate OnlyFile(w: World) {
    && (forall p :: p in w.hub || p in LedgerOf(w).files || p in LedgerOf(w).tombstones ==> p == FILE)
    && forall c, p :: p in LocalOf(w, c) ==> p == FILE
  }

  // --- moves ---

  function EnvAt(b: Board, c: ClientId): Env {
    Env(map[], map[], b.gen + 1, if c in b.cursors then b.cursors[c] else 0, RunOf(c).o.stamp, false, false)
  }

  function CellOn(b: Board, c: ClientId): Cell {
    var mine := Get(b.locals, c);
    Cell(HashIf(mine), HashIf(b.hub), b.entry, b.tomb, mine, b.hub,
         if b.entry.Some? && b.entry.value.hash.Sum? then Some(b.entry.value.hash.content) else None)
  }

  function Move(b: Board, turn: Turn): Board {
    match turn
    case Runs(c) =>
      var t := After(EnvAt(b, c), CellOn(b, c));
      Board(t.remote, t.entry, t.tomb, b.gen + 1, Put(b.locals, c, t.local), b.cursors[c := b.gen + 1])
    case Stops(c, n) =>
      var act := Choose(EnvAt(b, c), CellOn(b, c));
      var t := After(EnvAt(b, c), CellOn(b, c));
      if n == 0 then b
      else if HalfMerged(act, n) then b.(locals := Put(b.locals, c, Some(act.content)))
      else b.(hub := t.remote, locals := Put(b.locals, c, t.local))
    case Edits(c, content) => b.(locals := Put(b.locals, c, content))
    case EditsHub(content) => b.(hub := content)
  }

  /** A run finds the file somewhere and quarantines nothing. */
  predicate Movable(b: Board, turn: Turn) {
    turn.Runs? || turn.Stops? ==>
      && (b.hub.Some? || turn.client in b.locals || b.entry.Some? || b.tomb.Some?)
      && !Choose(EnvAt(b, turn.client), CellOn(b, turn.client)).Quarantine?
  }

  ghost predicate Good(w: World) {
    Inv(w) && OnlyFile(w)
  }

  function CellOf(w: World, c: ClientId): Cell {
    CellAt(RunEnv(w, RunOf(c).o), RunStart(w, RunOf(c).o), FILE)
  }

  lemma CellMatches(w: World, c: ClientId)
    requires Inv(w)
    ensures CellOf(w, c) == CellOn(BoardOf(w), c) && Faithful(CellOf(w, c))
  {
    var b := BoardOf(w);
    assert Get(b.locals, c) == Get(LocalOf(w, c), FILE);
  }

  lemma ChoiceMatches(w: World, c: ClientId)
    requires Inv(w)
    ensures Choose(RunEnv(w, RunOf(c).o), CellOf(w, c)) == Choose(EnvAt(BoardOf(w), c), CellOn(BoardOf(w), c))
    ensures After(RunEnv(w, RunOf(c).o), CellOf(w, c)) == After(EnvAt(BoardOf(w), c), CellOn(BoardOf(w), c))
  {
    CellMatches(w, c);
    SameChoice(RunEnv(w, RunOf(c).o), EnvAt(BoardOf(w), c), CellOf(w, c));
  }

  lemma RunLegal(w: World, c: ClientId)
    requires Good(w) && Movable(BoardOf(w), Runs(c))
    ensures Legal(w, RunOf(c))
  {
    var s := RunStart(w, RunOf(c).o);
    ChoiceMatches(w, c);
    CellMatches(w, c);
    assert CellOf(w, c).ours == Get(s.local, FILE);
    forall p ensures p in [FILE] <==> p in s.local || p in s.remote || p in s.files || p in s.tombs {
      assert p in s.local ==> p in LocalOf(w, c);
    }
  }

  /** What the loop leaves: the decided slot at the file, nothing elsewhere. */
  lemma LoopLeaves(w: World, c: ClientId)
    requires Good(w) && Movable(BoardOf(w), Runs(c))
    ensures var f := RunLoop(w, RunOf(c));
            && SlotAt(f, FILE) == After(EnvAt(BoardOf(w), c), CellOn(BoardOf(w), c))
            && forall p :: p != FILE ==> SlotAt(f, p) == VACANT
  {
    var ev := RunOf(c);
    var env, s := RunEnv(w, ev.o), RunStart(w, ev.o);
    RunLegal(w, c);
    RunReady(w, ev);
    ChoiceMatches(w, c);
    LoopHere(env, s, ev.paths, FILE);
    forall p | p != FILE ensures SlotAt(RunLoop(w, ev), p) == VACANT {
      LoopUntouched(env, s, ev.paths, p);
      assert p !in LocalOf(w, c);
    }
  }

  lemma SavedLedger(w: World, ev: Event)
    requires Inv(w) && ev.Run? && !ev.o.dryRun && ev.stop.Finished?
    ensures LedgerOf(Next(w, ev)) == NextLedger(LedgerOf(w), LedgerOf(w).generation + 1, RunLoop(w, ev), ev.o.client)
  {
    SaveAtomic(w.disk, NextLedger(LedgerOf(w), RunEnv(w, ev.o).gen, RunLoop(w, ev), ev.o.client));
  }

  /** The world's shared parts and its one client are those of f. */
  ghost predicate FromLoop(w: World, w': World, c: ClientId, f: State) {
    && w'.hub == f.remote && w'.locals == w.locals[c := f.local]
    && LedgerOf(w') == NextLedger(LedgerOf(w), LedgerOf(w).generation + 1, f, c)
  }

  lemma FromLoopOnly(w: World, w': World, c: ClientId, f: State)
    requires OnlyFile(w) && FromLoop(w, w', c, f) && forall p :: p != FILE ==> SlotAt(f, p) == VACANT
    ensures OnlyFile(w')
  {
    forall p | p in f.local || p in f.remote || p in f.files || p in f.tombs ensures p == FILE {
      assert SlotAt(f, p) != VACANT;
    }
    forall d, p | p in LocalOf(w', d) ensures p == FILE {
      assert d != c ==> p in LocalOf(w, d);
    }
  }

  lemma FromLoopBoard(w: World, w': World, c: ClientId, t: Slot, f: State)
    requires FromLoop(w, w', c, f) && SlotAt(f, FILE) == t
    ensures var b := BoardOf(w);
            BoardOf(w') ==
            Board(t.remote, t.entry, t.tomb, b.gen + 1, Put(b.locals, c, t.local), b.cursors[c := b.gen + 1])
  {
    assert t.local == Get(f.local, FILE);
    SameMap(BoardOf(w').locals, Put(BoardOf(w).locals, c, t.local));
  }

  lemma RunLeaves(w: World, c: ClientId)
    requires Inv(w)
    ensures FromLoop(w, Next(w, RunOf(c)), c, RunLoop(w, RunOf(c)))
  {
    HistoryLaws.FinishedWorld(w, RunOf(c));
    SavedLedger(w, RunOf(c));
  }

  lemma RunOnly(w: World, c: ClientId)
    requires Good(w) && Movable(BoardOf(w), Runs(c))
    ensures OnlyFile(Next(w, RunOf(c)))
  {
    LoopLeaves(w, c);
    RunLeaves(w, c);
    FromLoopOnly(w, Next(w, RunOf(c)), c, RunLoop(w, RunOf(c)));
  }

  lemma RunBoard(w: World, c: ClientId)
    requires Good(w) && Movable(BoardOf(w), Runs(c))
    ensures BoardOf(Next(w, RunOf(c))) == Move(BoardOf(w), Runs(c))
  {
    LoopLeaves(w, c);
    RunLeaves(w, c);
    FromLoopBoard(w, Next(w, RunOf(c)), c, After(EnvAt(BoardOf(w), c), CellOn(BoardOf(w), c)), RunLoop(w, RunOf(c)));
  }

  lemma RunKeepsInv(w: World, c: ClientId)
    requires Good(w) && Movable(BoardOf(w), Runs(c))
    ensures Legal(w, RunOf(c)) && Inv(Next(w, RunOf(c)))
  {
    RunLegal(w, c);
    RunInv(w, RunOf(c));
  }

  lemma RunMoves(w: World, c: ClientId)
    requires Good(w) && Movable(BoardOf(w), Runs(c))
    ensures Legal(w, RunOf(c)) && Good(Next(w, RunOf(c)))
    ensures BoardOf(Next(w, RunOf(c))) == Move(BoardOf(w), Runs(c))
  {
    RunKeepsInv(w, c);
    RunOnly(w, c);
    RunBoard(w, c);
  }

  // --- runs that stop ---

  /** What a stopped run leaves at the file, and nothing anywhere else. */
  lemma StopLeaves(w: World, c: ClientId, operations: nat)
    requires Good(w) && Movable(BoardOf(w), Runs(c))
    ensures var env, f := RunEnv(w, RunOf(c).o), RunLoop(w, StoppedRun(c, operations));
            PartOf(env, RunStart(w, RunOf(c).o), FILE, Choose(env, CellOf(w, c)), operations, FilesOf(f))
  {
    var env, s := RunEnv(w, RunOf(c).o), RunStart(w, RunOf(c).o);
    RunLegal(w, c);
    RunReady(w, RunOf(c));
    StopLaws.LeftPart(env, s, [FILE], 0, operations);
    assert [FILE][..0] == [];
  }

  lemma WholeFiles(env: Env, s: State)
    ensures FilesOf(Perform(env, s, FILE, Choose(env, CellAt(env, s, FILE)))) == FilesOf(Loop(env, s, [FILE]))
  {
    StopLaws.StepFiles(env, s, FILE);
    assert [FILE][..0] == [];
    assert Loop(env, s, []) == s;
  }

  /** A state with one slot at the file and nothing elsewhere. */
  lemma SlotReplicas(f: State, t: Slot)
    requires SlotAt(f, FILE) == t && forall p :: p != FILE ==> SlotAt(f, p) == VACANT
    ensures Get(f.local, FILE) == t.local && Get(f.remote, FILE) == t.remote
    ensures forall p :: p != FILE ==> p !in f.local && p !in f.remote
  {
    forall p | p != FILE ensures p !in f.local && p !in f.remote {
      assert SlotAt(f, p).local == Get(f.local, p) && SlotAt(f, p).remote == Get(f.remote, p);
    }
  }

  /** The whole decision's replicas, at the file. */
  lemma WholeLeaves(w: World, c: ClientId)
    requires Good(w) && Movable(BoardOf(w), Runs(c))
    ensures var env, s := RunEnv(w, RunOf(c).o), RunStart(w, RunOf(c).o);
            var f := Perform(env, s, FILE, Choose(env, CellOf(w, c)));
            var t := After(EnvAt(BoardOf(w), c), CellOn(BoardOf(w), c));
            && Get(f.local, FILE) == t.local && Get(f.remote, FILE) == t.remote
            && forall p :: p != FILE ==> p !in f.local && p !in f.remote
  {
    LoopLeaves(w, c);
    SlotReplicas(RunLoop(w, RunOf(c)), After(EnvAt(BoardOf(w), c), CellOn(BoardOf(w), c)));
    WholeFiles(RunEnv(w, RunOf(c).o), RunStart(w, RunOf(c).o));
  }

  /** What part of the decision leaves at the file is what the board shows, and nothing is elsewhere. */
  lemma PartShown(b: Board, c: ClientId, operations: nat, s: State, whole: State, f: State)
    requires var act, t := Choose(EnvAt(b, c), CellOn(b, c)), After(EnvAt(b, c), CellOn(b, c));
             && !act.Quarantine?
             && Get(whole.local, FILE) == t.local && Get(whole.remote, FILE) == t.remote
             && if HalfMerged(act, operations) then f.local == s.local[FILE := act.content] && f.remote == s.remote
                else if operations == 0 then f.local == s.local && f.remote == s.remote
                else f.local == whole.local && f.remote == whole.remote
    requires Get(s.local, FILE) == Get(b.locals, c) && Get(s.remote, FILE) == b.hub
    ensures var b' := Move(b, Stops(c, operations));
            Get(f.local, FILE) == Get(b'.locals, c) && Get(f.remote, FILE) == b'.hub
  {
  }

  lemma NothingBeside(w: World, c: ClientId)
    requires OnlyFile(w)
    ensures var s := RunStart(w, RunOf(c).o); forall p :: p != FILE ==> p !in s.local && p !in s.remote
  {
    assert forall p :: p in RunStart(w, RunOf(c).o).local ==> p in LocalOf(w, c);
  }

  /** The replicas a stopped run leaves are those of the board. */
  lemma StopReplicas(w: World, c: ClientId, operations: nat)
    requires Good(w) && Movable(BoardOf(w), Runs(c))
    ensures var f, b := RunLoop(w, StoppedRun(c, operations)), Move(BoardOf(w), Stops(c, operations));
            && Get(f.local, FILE) == Get(b.locals, c) && Get(f.remote, FILE) == b.hub
            && forall p :: p != FILE ==> p !in f.local && p !in f.remote
  {
    var env, s := RunEnv(w, RunOf(c).o), RunStart(w, RunOf(c).o);
    ChoiceMatches(w, c);
    StopLeaves(w, c, operations);
    WholeLeaves(w, c);
    NothingBeside(w, c);
    assert Get(BoardOf(w).locals, c) == Get(s.local, FILE);
    var whole := Perform(env, s, FILE, Choose(env, CellOf(w, c)));
    PartShown(BoardOf(w), c, operations, s, whole, RunLoop(w, StoppedRun(c, operations)));
  }

  lemma StopWorld(w: World, c: ClientId, operations: nat)
    ensures var f, w' := RunLoop(w, StoppedRun(c, operations)), Next(w, StoppedRun(c, operations));
            && w'.hub == f.remote && w'.locals == w.locals[c := f.local]
            && LedgerOf(w') == LedgerOf(w)
  {
  }

  /** The world's replicas are those of b', its ledger is as before. */
  lemma StoppedBoard(w: World, w': World, c: ClientId, f: State, b': Board)
    requires w'.hub == f.remote && w'.locals == w.locals[c := f.local] && LedgerOf(w') == LedgerOf(w)
    requires b' == BoardOf(w).(hub := b'.hub, locals := b'.locals)
    requires Get(f.local, FILE) == Get(b'.locals, c) && Get(f.remote, FILE) == b'.hub
    requires forall d :: d != c ==> Get(b'.locals, d) == Get(BoardOf(w).locals, d)
    ensures BoardOf(w') == b'
  {
    forall d ensures Get(BoardOf(w').locals, d) == Get(b'.locals, d) {
      assert Get(BoardOf(w').locals, d) == Get(LocalOf(w', d), FILE);
      assert Get(BoardOf(w).locals, d) == Get(LocalOf(w, d), FILE);
    }
    SameMap(BoardOf(w').locals, b'.locals);
  }

  lemma StoppedOnly(w: World, w': World, c: ClientId, f: State)
    requires OnlyFile(w) && w'.hub == f.remote && w'.locals == w.locals[c := f.local] && LedgerOf(w') == LedgerOf(w)
    requires forall p :: p != FILE ==> p !in f.local && p !in f.remote
    ensures OnlyFile(w')
  {
    forall d, p | p in LocalOf(w', d) ensures p == FILE {
      assert d != c ==> p in LocalOf(w, d);
    }
  }

  lemma StopShape(b: Board, c: ClientId, operations: nat)
    ensures var b' := Move(b, Stops(c, operations));
            && b' == b.(hub := b'.hub, locals := b'.locals)
            && forall d :: d != c ==> Get(b'.locals, d) == Get(b.locals, d)
  {
  }

  lemma StopOnly(w: World, c: ClientId, operations: nat)
    requires Good(w) && Movable(BoardOf(w), Runs(c))
    ensures OnlyFile(Next(w, StoppedRun(c, operations)))
  {
    StopReplicas(w, c, operations);
    StopWorld(w, c, operations);
    StoppedOnly(w, Next(w, StoppedRun(c, operations)), c, RunLoop(w, StoppedRun(c, operations)));
  }

  lemma StopBoard(w: World, c: ClientId, operations: nat)
    requires Good(w) && Movable(BoardOf(w), Runs(c))
    ensures BoardOf(Next(w, StoppedRun(c, operations))) == Move(BoardOf(w), Stops(c, operations))
  {
    var b' := Move(BoardOf(w), Stops(c, operations));
    StopReplicas(w, c, operations);
    StopWorld(w, c, operations);
    StopShape(BoardOf(w), c, operations);
    StoppedBoard(w, Next(w, StoppedRun(c, operations)), c, RunLoop(w, StoppedRun(c, operations)), b');
  }

  lemma StopMoves(w: World, c: ClientId, operations: nat)
    requires Good(w) && Movable(BoardOf(w), Stops(c, operations))
    ensures Legal(w, StoppedRun(c, operations)) && Good(Next(w, StoppedRun(c, operations)))
    ensures BoardOf(Next(w, StoppedRun(c, operations))) == Move(BoardOf(w), Stops(c, operations))
  {
    RunLegal(w, c);
    RunInv(w, StoppedRun(c, operations));
    StopOnly(w, c, operations);
    StopBoard(w, c, operations);
  }

  // --- edits ---

  lemma EditMoves(w: World, turn: Turn)
    requires Good(w) && !turn.Runs? && !turn.Stops?
    ensures Legal(w, EventOf(turn)) && Good(Next(w, EventOf(turn)))
    ensures BoardOf(Next(w, EventOf(turn))) == Move(BoardOf(w), turn)
  {
    UnsavedInv(w, Next(w, EventOf(turn)));
    match turn {
      case Edits(c, content) => LocalEdit(w, c, content);
      case EditsHub(content) => HubEdit(w, content);
    }
  }

  lemma LocalEdit(w: World, c: ClientId, content: Option<Content>)
    requires OnlyFile(w)
    ensures var w' := Next(w, EditLocal(c, FILE, content));
            OnlyFile(w') && BoardOf(w') == BoardOf(w).(locals := Put(BoardOf(w).locals, c, content))
  {
    var w' := Next(w, EditLocal(c, FILE, content));
    LocalEditOnly(w, c, content);
    assert LedgerOf(w') == LedgerOf(w);
    SameMap(BoardOf(w').locals, Put(BoardOf(w).locals, c, content));
  }

  lemma LocalEditOnly(w: World, c: ClientId, content: Option<Content>)
    requires OnlyFile(w)
    ensures OnlyFile(Next(w, EditLocal(c, FILE, content)))
  {
    var w' := Next(w, EditLocal(c, FILE, content));
    assert LedgerOf(w') == LedgerOf(w);
    forall d, p | p in LocalOf(w', d) ensures p == FILE {
      assert LocalOf(w', d) == if d == c then Put(LocalOf(w, c), FILE, content) else LocalOf(w, d);
      assert p != FILE ==> p in LocalOf(w, d);
    }
  }

  lemma HubEdit(w: World, content: Option<Content>)
    requires OnlyFile(w)
    ensures var w' := Next(w, EditHub(FILE, content));
            OnlyFile(w') && BoardOf(w') == BoardOf(w).(hub := content)
  {
    var w' := Next(w, EditHub(FILE, content));
    assert LedgerOf(w') == LedgerOf(w);
    assert BoardOf(w').locals == BoardOf(w).locals;
    assert forall c :: LocalOf(w', c) == LocalOf(w, c);
  }

  lemma SameMap(m: map<ClientId, Content>, n: map<ClientId, Content>)
    requires forall d :: Get(m, d) == Get(n, d)
    ensures m == n
  {
    forall d ensures d in m <==> d in n ensures d in m ==> m[d] == n[d] {
      assert Get(m, d) == Get(n, d);
    }
  }

  /** boards is the board before each turn and after the last. */
  ghost predicate Played(boards: seq<Board>, turns: seq<Turn>) {
    && |boards| == |turns| + 1
    && forall i :: 0 <= i < |turns| ==> Movable(boards[i], turns[i]) && boards[i + 1] == Move(boards[i], turns[i])
  }

  lemma TurnFaithful(w: World, turn: Turn)
    requires Good(w) && Movable(BoardOf(w), turn)
    ensures Legal(w, EventOf(turn)) && Good(Next(w, EventOf(turn)))
    ensures BoardOf(Next(w, EventOf(turn))) == Move(BoardOf(w), turn)
  {
    match turn {
      case Runs(c) => RunMoves(w, c);
      case Stops(c, n) => StopMoves(w, c, n);
      case _ => EditMoves(w, turn);
    }
  }

  lemma PlayedTail(boards: seq<Board>, turns: seq<Turn>)
    requires Played(boards, turns) && turns != []
    ensures Movable(boards[0], turns[0]) && boards[1] == Move(boards[0], turns[0])
    ensures Played(boards[1..], turns[1..])
  {
    forall i | 0 <= i < |turns| - 1
      ensures Movable(boards[1..][i], turns[1..][i]) && boards[1..][i + 1] == Move(boards[1..][i], turns[1..][i])
    {
      assert Movable(boards[i + 1], turns[i + 1]) && boards[(i + 1) + 1] == Move(boards[i + 1], turns[i + 1]);
    }
  }

  /** A game on the board is a legal history, and the board shows where it ends. */
  lemma {:induction false} BoardFaithful(w: World, boards: seq<Board>, turns: seq<Turn>)
    requires Good(w) && Played(boards, turns) && boards[0] == BoardOf(w)
    ensures AllLegal(w, EventsOf(turns))
    ensures BoardOf(Play(w, EventsOf(turns))) == boards[|turns|]
    decreases |turns|
  {
    if turns != [] {
      PlayedTail(boards, turns);
      TurnFaithful(w, turns[0]);
      BoardFaithful(Next(w, EventOf(turns[0])), boards[1..], turns[1..]);
      assert EventsOf(turns)[1..] == EventsOf(turns[1..]);
    }
  }

  lemma PrefixPlayed(boards: seq<Board>, turns: seq<Turn>, n: nat)
    requires Played(boards, turns) && n <= |turns|
    ensures Played(boards[..n + 1], turns[..n])
  {
  }

  lemma PlayedJoin(boards: seq<Board>, turns: seq<Turn>, n: nat)
    requires |boards| == |turns| + 1 && n <= |turns|
    requires Played(boards[..n + 1], turns[..n]) && Played(boards[n..], turns[n..])
    ensures Played(boards, turns)
  {
    forall i | 0 <= i < |turns| ensures Movable(boards[i], turns[i]) && boards[i + 1] == Move(boards[i], turns[i]) {
      if i < n {
        var first, start := boards[..n + 1], turns[..n];
        assert Movable(first[i], start[i]) && first[i + 1] == Move(first[i], start[i]);
      } else {
        assert boards[n..][i - n] == boards[i] && turns[n..][i - n] == turns[i];
        assert boards[n..][(i - n) + 1] == boards[i + 1];
      }
    }
  }
}
