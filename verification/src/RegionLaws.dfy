/**
 * diff3Chunks never cuts out a region that neither side changed, so the first case of
 * resolveChunk is never taken (internal/merge/merge.go, lines 96-107 and 132-133).
 */
module RegionLaws {
  import opened Lcs
  import opened Diff3
  import opened Diff3Laws

  /** Two match maps agree from base line k on. */
  ghost predicate AgreeFrom(m: Matching, n: Matching, k: nat) {
    forall l :: l >= k ==> (l in m <==> l in n) && (l in m ==> m[l] == n[l])
  }

  /** From a matched line on, a trace is the trace that starts there. */
  lemma {:induction false} TraceFrom<T>(o: seq<T>, x: seq<T>, i: nat, j: nat, k: nat)
    requires i <= |o| && j <= |x| && k in Trace(o, x, i, j)
    ensures k < |o| && Trace(o, x, i, j)[k] < |x|
    ensures AgreeFrom(Trace(o, x, i, j), Trace(o, x, k, Trace(o, x, i, j)[k]), k)
    decreases |o| - i + |x| - j
  {
    if o[i] == x[j] {
      TraceHead(o, x, i, j);
      if k != i { TraceFrom(o, x, i + 1, j + 1, k); }
    } else if LcsLen(o, x, i + 1, j) >= LcsLen(o, x, i, j + 1) {
      TraceFrom(o, x, i + 1, j, k);
    } else {
      TraceFrom(o, x, i, j + 1, k);
    }
  }

  /** Equal lines at the cursor are matched with each other, and the rest lies after them. */
  lemma TraceHead<T>(o: seq<T>, x: seq<T>, i: nat, j: nat)
    requires i < |o| && j < |x| && o[i] == x[j]
    ensures var t, rest := Trace(o, x, i, j), Trace(o, x, i + 1, j + 1);
            && i in t && t[i] == j && AgreeFrom(t, rest, i + 1)
            && forall l :: l in t ==> l >= i
  {
    TraceMatches(o, x, i + 1, j + 1);
  }

  /** Both match maps, from the cursor on, are the traces that start at the cursor. */
  ghost predicate OnTrace<T>(t: Inputs<T>, c: Cursor)
    requires UpTo(c, End(t))
  {
    AgreeFrom(t.ma, Trace(t.o, t.a, c.o, c.a), c.o) && AgreeFrom(t.mb, Trace(t.o, t.b, c.o, c.b), c.o)
  }

  lemma OnTraceAt<T>(t: Inputs<T>, k: nat)
    requires t == InputsOf(t.o, t.a, t.b) && Joint(t, k)
    ensures UpTo(At(t, k), End(t)) && OnTrace(t, At(t, k))
  {
    TraceFrom(t.o, t.a, 0, 0, k);
    TraceFrom(t.o, t.b, 0, 0, k);
  }

  lemma OnTraceDiagonal<T>(t: Inputs<T>, c: Cursor)
    requires Valid(t) && UpTo(c, End(t)) && OnTrace(t, c) && Agreed(t, c)
    ensures UpTo(Diagonal(c), End(t)) && OnTrace(t, Diagonal(c))
  {
    AgreeNext(t.o, t.a, t.ma, c.o, c.a);
    AgreeNext(t.o, t.b, t.mb, c.o, c.b);
  }

  lemma AgreeNext<T>(o: seq<T>, x: seq<T>, m: Matching, i: nat, j: nat)
    requires i < |o| && j < |x| && o[i] == x[j] && AgreeFrom(m, Trace(o, x, i, j), i)
    ensures AgreeFrom(m, Trace(o, x, i + 1, j + 1), i + 1)
  {
    TraceHead(o, x, i, j);
  }

  ghost predicate SomeSideChanged<T>(t: Inputs<T>, r: Region)
    requires Fits(t, r)
  {
    || t.a[r.from.a..r.to.a] != t.o[r.from.o..r.to.o]
    || t.b[r.from.b..r.to.b] != t.o[r.from.o..r.to.o]
  }

  /** On the trace, equal first lines are matched, so an unchanged region would have been stable. */
  lemma ChangedRegion<T>(t: Inputs<T>, c: Cursor, d: Cursor)
    requires Valid(t) && UpTo(c, d) && UpTo(d, End(t)) && OnTrace(t, c) && c != d
    requires c.o < |t.o| ==> !Agreed(t, c)
    ensures SomeSideChanged(t, Region(false, c, d))
  {
    var o, a, b := t.o[c.o..d.o], t.a[c.a..d.a], t.b[c.b..d.b];
    if o != [] && a != [] && b != [] && a[0] == o[0] && b[0] == o[0] {
      TraceHead(t.o, t.a, c.o, c.a);
      TraceHead(t.o, t.b, c.o, c.b);
    }
  }

  /** Every unstable region was changed by at least one side. */
  lemma {:induction false} UnstableChanged<T>(t: Inputs<T>, c: Cursor)
    requires t == InputsOf(t.o, t.a, t.b) && UpTo(c, End(t)) && Clear(t, c) && OnTrace(t, c)
    ensures forall r :: r in Align(t, c) && !r.stable ==> SomeSideChanged(t, r)
    decreases Left(t, c)
  {
    if c.o < |t.o| {
      if Agreed(t, c) {
        ClearAfter(t, c.o);
        OnTraceDiagonal(t, c);
        UnstableChanged(t, Diagonal(c));
      } else {
        var d := NextSync(t, c);
        SyncFirst(t, c, c.o);
        ChangedRegion(t, c, d);
        if d.o < |t.o| {
          OnTraceAt(t, d.o);
        }
        UnstableChanged(t, d);
      }
    } else if c.a < |t.a| || c.b < |t.b| {
      ChangedRegion(t, c, End(t));
    }
  }

  /** For all texts, no unstable region is left alone by both sides. */
  lemma NoIdleRegion<T>(o: seq<T>, a: seq<T>, b: seq<T>)
    ensures var t := InputsOf(o, a, b);
            forall r :: r in Align(t, Start()) && !r.stable ==> SomeSideChanged(t, r)
  {
    StartClear(InputsOf(o, a, b));
    UnstableChanged(InputsOf(o, a, b), Start());
  }
}
