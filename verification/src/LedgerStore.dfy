/**
 * The ledger on the hub's disk (internal/ledger/ledger.go, Load and Save), as file
 * operations with a possible crash between any two of them.
 */
module LedgerStore {
  import opened Ledger

  datatype Name = Primary | Bak | Tmp

  /** A file holds a whole ledger, or bytes that do not decode. */
  datatype File = Torn | Whole(ledger: Ledger)

  type Disk = map<Name, File>

  datatype LoadResult = Loaded(ledger: Ledger) | Unreadable

  function LoadOf(d: Disk): LoadResult {
    var backup := Bak in d && d[Bak].Whole?;
    if Primary in d && d[Primary].Whole? then Loaded(d[Primary].ledger)
    else if Primary in d then if backup then Loaded(d[Bak].ledger) else Unreadable
    else if backup then Loaded(d[Bak].ledger)
    else Loaded(EMPTY)
  }

  /** A readable primary counts, whatever the backup; then a readable backup; a missing primary is an empty hub. */
  lemma LoadCases(d: Disk, l: Ledger)
    ensures Primary in d && d[Primary] == Whole(l) ==> LoadOf(d) == Loaded(l)
    ensures !(Primary in d && d[Primary].Whole?) && Bak in d && d[Bak] == Whole(l) ==> LoadOf(d) == Loaded(l)
    ensures !(Bak in d && d[Bak].Whole?) && Primary !in d ==> LoadOf(d) == Loaded(Ledger(0, map[], map[], map[]))
    ensures LoadOf(d) == Unreadable <==> Primary in d && d[Primary].Torn? && !(Bak in d && d[Bak].Whole?)
  {
  }

  /** The disk after each file operation of one Save; the write of tmp may be cut short. */
  function SaveTrace(d: Disk, l: Ledger): seq<Disk> {
    var written := d[Tmp := Whole(l)];
    [d[Tmp := Torn], written]
    + if Primary in d then [written - {Bak}, Rotated(written), Committed(Rotated(written), l)]
      else [Committed(written, l)]
  }

  function Rotated(d: Disk): Disk
    requires Primary in d
  {
    (d - {Primary})[Bak := d[Primary]]
  }

  function Committed(d: Disk, l: Ledger): Disk {
    (d - {Tmp})[Primary := Whole(l)]
  }

  function Saved(d: Disk, l: Ledger): Disk {
    var trace := SaveTrace(d, l);
    trace[|trace| - 1]
  }

  class Store {
    var disk: Disk
    /** Local rename replaces an existing target; SMB rename refuses. */
    const renameReplaces: bool
    ghost var trace: seq<Disk>

    constructor (disk: Disk, renameReplaces: bool)
      ensures this.disk == disk && this.renameReplaces == renameReplaces && trace == []
    {
      this.disk := disk;
      this.renameReplaces := renameReplaces;
      trace := [];
    }

    method WriteFile(n: Name, l: Ledger)
      modifies this
      ensures disk == old(disk)[n := Whole(l)]
      ensures trace == old(trace) + [old(disk)[n := Torn], disk]
    {
      disk := disk[n := Torn];
      trace := trace + [disk];
      disk := disk[n := Whole(l)];
      trace := trace + [disk];
    }

    method Remove(n: Name)
      modifies this
      ensures disk == old(disk) - {n}
      ensures trace == old(trace) + [disk]
    {
      disk := disk - {n};
      trace := trace + [disk];
    }

    method Rename(from: Name, to: Name) returns (ok: bool)
      requires from != to
      modifies this
      ensures ok <==> from in old(disk) && (renameReplaces || to !in old(disk))
      ensures ok ==> disk == (old(disk) - {from})[to := old(disk)[from]] && trace == old(trace) + [disk]
      ensures !ok ==> disk == old(disk) && trace == old(trace)
    {
      ok := from in disk && (renameReplaces || to !in disk);
      if ok {
        disk := (disk - {from})[to := disk[from]];
        trace := trace + [disk];
      }
    }

    method Load() returns (r: LoadResult)
      ensures r == LoadOf(disk)
    {
      if Primary in disk {
        match disk[Primary] {
          case Whole(l) => return Loaded(l);
          case Torn =>
        }
        if Bak in disk && disk[Bak].Whole? {
          return Loaded(disk[Bak].ledger);
        }
        return Unreadable;
      }
      if Bak in disk && disk[Bak].Whole? {
        return Loaded(disk[Bak].ledger);
      }
      return Loaded(EMPTY);
    }

    /** Succeeds, through the same states, whether or not rename replaces its target. */
    method Save(l: Ledger) returns (ok: bool)
      modifies this
      ensures ok
      ensures disk == Saved(old(disk), l)
      ensures trace == old(trace) + SaveTrace(old(disk), l)
    {
      WriteFile(Tmp, l);
      if Primary in disk {
        Remove(Bak);
        ok := Rename(Primary, Bak);
        if !ok { return; }
        assert disk == Rotated(old(disk)[Tmp := Whole(l)]);
      }
      ok := Rename(Tmp, Primary);
    }
  }

  // --- the crash-safe register ---

  /** The primary, when there is one, decodes. */
  predicate Sound(d: Disk) {
    Primary in d ==> d[Primary].Whole?
  }

  /** Every state Save passes through loads as the old ledger, the last one as the new. */
  lemma SaveAtomic(d: Disk, l: Ledger)
    requires Sound(d)
    ensures var trace := SaveTrace(d, l);
            && (forall e :: e in trace ==> Sound(e))
            && (forall i :: 0 <= i < |trace| - 1 ==> LoadOf(trace[i]) == LoadOf(d))
            && LoadOf(Saved(d, l)) == Loaded(l)
            && LoadOf(d).Loaded?
  {
  }

  /** No crash inside a Save can lose the ledger. */
  ghost predicate CrashSafe(d: Disk, l: Ledger) {
    forall e :: e in SaveTrace(d, l) ==> LoadOf(e).Loaded? && (LoadOf(e) == LoadOf(d) || LoadOf(e) == Loaded(l))
  }

  /** That holds exactly when the primary was readable or absent to begin with. */
  lemma CrashSafeIff(d: Disk, l: Ledger)
    ensures CrashSafe(d, l) <==> Sound(d)
  {
    var trace := SaveTrace(d, l);
    if Sound(d) {
      SaveAtomic(d, l);
      assert forall e :: e in trace ==> exists i :: 0 <= i < |trace| && e == trace[i];
    } else {
      assert trace[0] in trace && trace[2] in trace;
    }
  }

  /** From a torn primary, Save throws the good backup away before it commits anything. */
  lemma TornPrimaryLosesBackup(good: Ledger, l: Ledger)
    ensures var d: Disk := map[Primary := Torn, Bak := Whole(good)];
            && LoadOf(d) == Loaded(good)
            && exists e :: e in SaveTrace(d, l) && LoadOf(e) == Loaded(EMPTY)
  {
    var d: Disk := map[Primary := Torn, Bak := Whole(good)];
    assert SaveTrace(d, l)[3] in SaveTrace(d, l) && LoadOf(SaveTrace(d, l)[3]) == Loaded(EMPTY);
  }

  /** One call of Save that stops after some of its file operations, or runs to the end. */
  datatype Attempt = Attempt(ledger: Ledger, operations: nat)

  predicate Commits(d: Disk, at: Attempt) {
    at.operations >= |SaveTrace(d, at.ledger)|
  }

  function AfterAttempt(d: Disk, at: Attempt): Disk {
    if at.operations == 0 then d
    else if Commits(d, at) then Saved(d, at.ledger)
    else SaveTrace(d, at.ledger)[at.operations - 1]
  }

  function AfterAttempts(d: Disk, ats: seq<Attempt>): Disk
    decreases |ats|
  {
    if ats == [] then d else AfterAttempts(AfterAttempt(d, ats[0]), ats[1..])
  }

  /** The ledger of the last attempt that reached its final rename. */
  function LastCommitted(d: Disk, current: Ledger, ats: seq<Attempt>): Ledger
    decreases |ats|
  {
    if ats == [] then current
    else
      LastCommitted(AfterAttempt(d, ats[0]), if Commits(d, ats[0]) then ats[0].ledger else current, ats[1..])
  }

  /** After any saves, each cut short anywhere, Load returns what was last committed. */
  lemma {:induction false} RegisterExact(d: Disk, current: Ledger, ats: seq<Attempt>)
    requires Sound(d) && LoadOf(d) == Loaded(current)
    ensures Sound(AfterAttempts(d, ats))
    ensures LoadOf(AfterAttempts(d, ats)) == Loaded(LastCommitted(d, current, ats))
    decreases |ats|
  {
    if ats != [] {
      AttemptAtomic(d, ats[0]);
      RegisterExact(AfterAttempt(d, ats[0]), if Commits(d, ats[0]) then ats[0].ledger else current, ats[1..]);
    }
  }

  lemma AttemptAtomic(d: Disk, at: Attempt)
    requires Sound(d)
    ensures var e := AfterAttempt(d, at);
            Sound(e) && LoadOf(e) == if Commits(d, at) then Loaded(at.ledger) else LoadOf(d)
  {
    SaveAtomic(d, at.ledger);
    var trace := SaveTrace(d, at.ledger);
    assert forall i :: 0 <= i < |trace| ==> trace[i] in trace;
  }
}
