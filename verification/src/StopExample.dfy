/** One run stopped between the two writes of a merge (internal/runner/worktree.go, lines 289-310). */
module StopExample {
  import opened Options
  import opened Ledger
  import opened BlobStore
  import opened Lines
  import opened MergeExamples
  import opened Decision
  import opened LoopLaws
  import opened RunLaws
  import opened EditLaws
  import opened RestartLaws
  import opened StopLaws

  /** Two equal lines are recorded; one was dropped locally, and p came in front of them on the hub. */
  function BeforeMerge(p: Line, q: Line): State {
    State(map["a" := q], map["a" := p + q + q],
          map[Sum(q + q) := q + q], map["a" := FileEntry(Sum(q + q), 1)], map[], [])
  }

  function FirstEnv(s: State, stamp: string): Env {
    Env(ScanOf(s.local), ScanOf(s.remote), 2, 1, stamp, false, false)
  }

  ghost predicate Suitable(p: Line, q: Line) {
    FullLine(p) && FullLine(q) && p != q && IsText(q) && IsText(p + q) && IsText(p + q + q)
  }

  lemma Lengths(p: Line, q: Line)
    requires Suitable(p, q)
    ensures q != q + q && q + q != p + q + q && q != p + q + q && p + q != p + q + q && p + q != q + q
  {
    assert |q| < |q + q| < |p + q + q| && |p + q| < |p + q + q|;
    assert (p + q)[..|p|] == p && (q + q)[..|q|] == q && |p + q| == |p| + |q|;
  }

  lemma FirstChoice(p: Line, q: Line, stamp: string)
    requires Suitable(p, q)
    ensures var s := BeforeMerge(p, q); var env := FirstEnv(s, stamp);
            Faithful(CellAt(env, s, "a")) && Choose(env, CellAt(env, s, "a")) == WriteMerged(p + q)
  {
    var s := BeforeMerge(p, q);
    var env := FirstEnv(s, stamp);
    Lengths(p, q);
    MergeDoesNotHold(p, q);
    EditsMeet(env, CellAt(env, s, "a"));
  }

  lemma SlotLive(env: Env, f: State, x: Content)
    requires SlotAt(f, "a") == LiveSlot(env, x)
    ensures LiveBoth(f, "a", x)
  {
    assert SlotAt(f, "a").local == Get(f.local, "a") && SlotAt(f, "a").remote == Get(f.remote, "a");
  }

  /** A state with the one path "a" on both sides and in the ledger. */
  lemma OnePathRuns(s: State, stamp: string)
    requires s.local.Keys == {"a"} && s.remote.Keys == {"a"} && s.files.Keys == {"a"} && s.tombs == map[]
    requires Covers(s.blobs, s.files)
    ensures Runnable(FirstEnv(s, stamp), s, ["a"])
  {
    SidecarDiffers("a", stamp);
  }

  lemma FirstRuns(p: Line, q: Line, stamp: string)
    requires Suitable(p, q)
    ensures Runnable(FirstEnv(BeforeMerge(p, q), stamp), BeforeMerge(p, q), ["a"])
  {
    OnePathRuns(BeforeMerge(p, q), stamp);
  }

  /** After the first write of the merge. */
  function HalfWay(p: Line, q: Line): State {
    BeforeMerge(p, q).(local := map["a" := p + q])
  }

  lemma HalfWayLeft(p: Line, q: Line, stamp: string)
    requires Suitable(p, q)
    ensures Left(FirstEnv(BeforeMerge(p, q), stamp), BeforeMerge(p, q), ["a"], 0, 1) == HalfWay(p, q)
  {
    var s := BeforeMerge(p, q);
    FirstChoice(p, q, stamp);
    assert ["a"][..0] == [];
    assert s.local["a" := p + q] == map["a" := p + q];
  }

  lemma SecondChoice(p: Line, q: Line, stamp: string)
    requires Suitable(p, q)
    ensures var s := HalfWay(p, q); var env := FirstEnv(s, stamp);
            Faithful(CellAt(env, s, "a")) && Choose(env, CellAt(env, s, "a")) == Quarantine(p + q)
  {
    var s := HalfWay(p, q);
    var env := FirstEnv(s, stamp);
    Lengths(p, q);
    MergeDoesNotHold(p, q);
    EditsMeet(env, CellAt(env, s, "a"));
  }

  lemma SecondRuns(p: Line, q: Line, stamp: string)
    requires Suitable(p, q)
    ensures Runnable(FirstEnv(HalfWay(p, q), stamp), HalfWay(p, q), ["a"])
  {
    OnePathRuns(HalfWay(p, q), stamp);
  }

  /** Uninterrupted, the two edits are merged; stopped after the merge's first write, they end in conflict. */
  lemma StoppedMergeConflicts(p: Line, q: Line, stamp: string, stamp': string)
    requires Suitable(p, q)
    ensures var s := BeforeMerge(p, q); var env := FirstEnv(s, stamp);
            && Runnable(env, s, ["a"])
            && Loop(env, s, ["a"]).conflicts == [] && LiveBoth(Loop(env, s, ["a"]), "a", p + q)
    ensures var s := BeforeMerge(p, q); var env := FirstEnv(s, stamp);
            var s' := Left(env, s, ["a"], 0, 1); var env' := Again(env, s', stamp');
            && Runnable(env', s', ["a"])
            && "a" in Loop(env', s', ["a"]).conflicts && LiveBoth(Loop(env', s', ["a"]), "a", p + q + q)
            && LiveBoth(Loop(env', s', ["a"]), Sidecar("a", stamp'), p + q)
  {
    FirstRuns(p, q, stamp);
    MergedEnd(p, q, stamp);
    HalfWayLeft(p, q, stamp);
    SecondRuns(p, q, stamp');
    ConflictEnd(p, q, stamp');
  }

  lemma MergedEnd(p: Line, q: Line, stamp: string)
    requires Suitable(p, q)
    ensures var s := BeforeMerge(p, q); var f := Loop(FirstEnv(s, stamp), s, ["a"]);
            f.conflicts == [] && LiveBoth(f, "a", p + q)
  {
    var s := BeforeMerge(p, q);
    FirstRuns(p, q, stamp);
    FirstChoice(p, q, stamp);
    OneMerge(FirstEnv(s, stamp), s, p + q);
  }

  lemma OneMerge(env: Env, s: State, m: Content)
    requires Runnable(env, s, ["a"]) && s.conflicts == [] && Choose(env, CellAt(env, s, "a")) == WriteMerged(m)
    ensures var f := Loop(env, s, ["a"]); f.conflicts == [] && LiveBoth(f, "a", m)
  {
    LoopHere(env, s, ["a"], "a");
    NoConflicts(env, s, ["a"]);
    SlotLive(env, Loop(env, s, ["a"]), m);
  }

  lemma OneQuarantine(env: Env, s: State, x: Content, y: Content)
    requires Runnable(env, s, ["a"]) && Choose(env, CellAt(env, s, "a")) == Quarantine(x)
    requires CellAt(env, s, "a").theirs == Some(y)
    ensures var f := Loop(env, s, ["a"]);
            "a" in f.conflicts && LiveBoth(f, "a", y) && LiveBoth(f, Sidecar("a", env.stamp), x)
  {
    LoopHere(env, s, ["a"], "a");
    ConflictsExact(env, s, ["a"], "a");
    SetAside(env, s, ["a"], "a");
    SlotLive(env, Loop(env, s, ["a"]), y);
  }

  lemma ConflictEnd(p: Line, q: Line, stamp: string)
    requires Suitable(p, q)
    ensures var s := HalfWay(p, q); var f := Loop(FirstEnv(s, stamp), s, ["a"]);
            "a" in f.conflicts && LiveBoth(f, "a", p + q + q) && LiveBoth(f, Sidecar("a", stamp), p + q)
  {
    var s := HalfWay(p, q);
    SecondRuns(p, q, stamp);
    SecondChoice(p, q, stamp);
    OneQuarantine(FirstEnv(s, stamp), s, p + q, p + q + q);
  }

  /** Two such lines. */
  lemma SuitableLines()
    ensures Suitable("b\n", "a\n")
  {
    assert "b\n"[0] != "a\n"[0];
    assert "b\n" + "a\n" == "b\na\n" && "b\n" + "a\n" + "a\n" == "b\na\na\n";
  }
}
