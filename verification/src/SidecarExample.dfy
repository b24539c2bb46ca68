/** One path in conflict in two runs: each run's version keeps its own sidecar. */
module SidecarExample {
  import opened Options
  import opened Ledger
  import opened BlobStore
  import opened Decision
  import opened LoopLaws
  import opened RunLaws
  import opened EditLaws
  import opened SidecarLaws

  const NOTE: Path := "n.md"

  /** Two different notes meet that no ledger knows. */
  const FIRST: State := State(map[NOTE := "v1"], map[NOTE := "hub1"], map[], map[], map[], [])

  /** A run that does not merge. */
  function PlainEnv(s: State, gen: int, stamp: string): Env {
    Env(ScanOf(s.local), ScanOf(s.remote), gen, gen - 1, stamp, false, true)
  }

  lemma FirstRun(stamp: string)
    ensures var env := PlainEnv(FIRST, 1, stamp);
            Runnable(env, FIRST, [NOTE]) && Choose(env, CellAt(env, FIRST, NOTE)) == Quarantine("v1")
  {
    SidecarDiffers(NOTE, stamp);
  }

  lemma FirstEnds(stamp: string)
    ensures var f := Loop(PlainEnv(FIRST, 1, stamp), FIRST, [NOTE]);
            && SlotAt(f, NOTE) == LiveSlot(PlainEnv(FIRST, 1, stamp), "hub1")
            && SlotAt(f, Sidecar(NOTE, stamp)) == LiveSlot(PlainEnv(FIRST, 1, stamp), "v1")
            && (forall q :: q != NOTE && q != Sidecar(NOTE, stamp) ==> SlotAt(f, q) == VACANT)
            && Covers(f.blobs, f.files)
  {
    var env := PlainEnv(FIRST, 1, stamp);
    FirstRun(stamp);
    Convergence(env, FIRST, [NOTE]);
    LoopHere(env, FIRST, [NOTE], NOTE);
    assert SidecarOf(env, FIRST, [NOTE], Sidecar(NOTE, stamp), NOTE);
    LoopSlot(env, FIRST, [NOTE], Sidecar(NOTE, stamp));
    OneOwner(env, FIRST, [NOTE], Sidecar(NOTE, stamp), NOTE);
    forall q | q != NOTE && q != Sidecar(NOTE, stamp) ensures SlotAt(Loop(env, FIRST, [NOTE]), q) == VACANT {
      LoopSlot(env, FIRST, [NOTE], q);
      assert forall p :: !SidecarOf(env, FIRST, [NOTE], q, p);
    }
  }

  /** After the first run both sides edit the note again. */
  function Second(f: State): State {
    f.(local := f.local[NOTE := "v2"], remote := f.remote[NOTE := "hub2"], conflicts := [])
  }

  lemma SecondStarts(f: State, env: Env, stamp: string, stamp': string)
    requires SlotAt(f, NOTE) == LiveSlot(env, "hub1") && SlotAt(f, Sidecar(NOTE, stamp)) == LiveSlot(env, "v1")
    requires forall q :: q != NOTE && q != Sidecar(NOTE, stamp) ==> SlotAt(f, q) == VACANT
    requires Covers(f.blobs, f.files) && Dotless(stamp) && Dotless(stamp') && stamp != stamp'
    ensures var s := Second(f); var paths := [NOTE, Sidecar(NOTE, stamp)];
            && Distinct(paths) && Listing(s, paths) && Unused(s, stamp')
            && SlotAt(s, Sidecar(NOTE, stamp)) == LiveSlot(env, "v1")
  {
    var s, q := Second(f), Sidecar(NOTE, stamp);
    SidecarDiffers(NOTE, stamp);
    SidecarEnds(NOTE, stamp);
    if EndsIn(q, stamp') { OneStamp(q, stamp, stamp'); }
    assert SlotAt(f, q).local == Get(f.local, q) && SlotAt(f, q).remote == Get(f.remote, q);
    assert SlotAt(f, q).entry == Get(f.files, q) && SlotAt(f, q).tomb == Get(f.tombs, q);
    forall p ensures p in [NOTE, q] <==> p in s.local || p in s.remote || p in s.files || p in s.tombs {
      assert p != NOTE && p != q ==> SlotAt(f, p) == VACANT;
    }
    assert !EndsIn(NOTE, stamp');
  }

  lemma SecondChoice(f: State, env: Env, stamp': string)
    requires SlotAt(f, NOTE) == LiveSlot(env, "hub1") && Covers(f.blobs, f.files)
    ensures var s := Second(f); var env' := PlainEnv(s, 2, stamp');
            Choose(env', CellAt(env', s, NOTE)) == Quarantine("v2")
  {
    assert SlotAt(f, NOTE).entry == Get(f.files, NOTE) && SlotAt(f, NOTE).tomb == Get(f.tombs, NOTE);
  }

  lemma SecondRun(f: State, stamp: string, stamp': string)
    requires Dotless(stamp) && Dotless(stamp') && stamp != stamp'
    requires f == Loop(PlainEnv(FIRST, 1, stamp), FIRST, [NOTE])
    ensures var f' := Loop(PlainEnv(Second(f), 2, stamp'), Second(f), [NOTE, Sidecar(NOTE, stamp)]);
            LiveBoth(f', Sidecar(NOTE, stamp), "v1") && LiveBoth(f', Sidecar(NOTE, stamp'), "v2")
  {
    var env, s', paths := PlainEnv(FIRST, 1, stamp), Second(f), [NOTE, Sidecar(NOTE, stamp)];
    FirstRun(stamp);
    FirstEnds(stamp);
    SecondStarts(f, env, stamp, stamp');
    SecondChoice(f, env, stamp');
    SetAsideTwice(env, FIRST, [NOTE], PlainEnv(s', 2, stamp'), s', paths, NOTE, "v1", "v2");
  }

  lemma NoteSidecar(stamp: string)
    ensures Sidecar(NOTE, stamp) == "n.md.mergefail." + stamp
  {
  }

  /** After the second run both versions lie aside, each under its run's stamp, on both replicas. */
  lemma BothAside(stamp: string, stamp': string)
    requires Dotless(stamp) && Dotless(stamp') && stamp != stamp'
    ensures var f := Loop(PlainEnv(FIRST, 1, stamp), FIRST, [NOTE]);
            var f' := Loop(PlainEnv(Second(f), 2, stamp'), Second(f), [NOTE, Sidecar(NOTE, stamp)]);
            LiveBoth(f', "n.md.mergefail." + stamp, "v1") && LiveBoth(f', "n.md.mergefail." + stamp', "v2")
  {
    SecondRun(Loop(PlainEnv(FIRST, 1, stamp), FIRST, [NOTE]), stamp, stamp');
    NoteSidecar(stamp);
    NoteSidecar(stamp');
  }
}
