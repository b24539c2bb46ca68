/** The content-addressed merge bases on the hub (internal/ledger/ledger.go, lines 185-252). */
module BlobStore {
  import opened Options
  import opened Ledger

  type Blobs = map<Hash, Content>

  /** Each blob is filed under its own hash. */
  ghost predicate Intact(blobs: Blobs) {
    forall h :: h in blobs ==> h == Sum(blobs[h])
  }

  /** Every ledger entry's version can be read back from the store. */
  ghost predicate Covers(blobs: Blobs, files: map<Path, FileEntry>) {
    Intact(blobs) && forall p :: p in files ==> files[p].hash in blobs
  }

  function Referenced(files: map<Path, FileEntry>): set<Hash> {
    set p | p in files :: files[p].hash
  }

  function WithBlob(blobs: Blobs, h: Hash, content: Content): Blobs {
    if h in blobs then blobs else blobs[h := content]
  }

  /** gone is what a collection takes if only that many removals succeed; done if it is all the garbage. */
  ghost predicate Collection(blobs: Blobs, files: map<Path, FileEntry>, removals: nat, done: bool, gone: set<Hash>) {
    var stale := blobs.Keys - Referenced(files);
    gone <= stale && (done <==> |stale| <= removals) && (done ==> gone == stale)
  }

  class Store {
    var blobs: Blobs

    constructor (blobs: Blobs)
      ensures this.blobs == blobs
    {
      this.blobs := blobs;
    }

    /** Stores content under its hash unless the hash is already there. */
    method PutBlob(h: Hash, content: Content)
      modifies this
      ensures blobs == WithBlob(old(blobs), h, content)
    {
      if h !in blobs {
        blobs := blobs[h := content];
      }
    }

    method GetBlob(h: Hash) returns (r: Option<Content>)
      ensures r == Get(blobs, h)
    {
      r := Get(blobs, h);
    }

    /**
     * Removes unreferenced blobs until done or until a removal fails; removals is how
     * many succeed before the first failure.
     */
    method GCBlobs(files: map<Path, FileEntry>, removals: nat) returns (ok: bool, ghost gone: set<Hash>)
      modifies this
      ensures Collection(old(blobs), files, removals, ok, gone) && blobs == old(blobs) - gone
    {
      ok, gone := RemoveAll(blobs.Keys - Referenced(files), removals);
    }

    method RemoveAll(stale: set<Hash>, removals: nat) returns (ok: bool, ghost gone: set<Hash>)
      modifies this
      ensures gone <= stale && blobs == old(blobs) - gone
      ensures ok <==> |stale| <= removals
      ensures ok ==> gone == stale
    {
      var todo, left := stale, removals;
      gone := {};
      while todo != {}
        invariant todo !! gone && todo + gone == stale
        invariant blobs == old(blobs) - gone
        invariant |todo| - left == |stale| - removals
        decreases todo
      {
        if left == 0 {
          return false, gone;
        }
        var h :| h in todo;
        MinusTwice(old(blobs), gone, h);
        blobs := blobs - {h};
        todo, gone := todo - {h}, gone + {h};
        left := left - 1;
      }
      ok := true;
    }
  }

  lemma MinusTwice(m: Blobs, gone: set<Hash>, h: Hash)
    ensures (m - gone) - {h} == m - (gone + {h})
  {
  }

  /** Storing a version under its own hash keeps every base available, and adds the new one. */
  lemma PutKeepsBases(blobs: Blobs, files: map<Path, FileEntry>, p: Path, content: Content, gen: int)
    requires Covers(blobs, files)
    ensures Covers(WithBlob(blobs, Sum(content), content), files[p := FileEntry(Sum(content), gen)])
  {
  }

  /** Collection, complete or cut short, never takes a merge base. */
  lemma GCKeepsBases(blobs: Blobs, files: map<Path, FileEntry>, gone: set<Hash>)
    requires Covers(blobs, files) && gone <= blobs.Keys - Referenced(files)
    ensures Covers(blobs - gone, files)
    ensures gone == blobs.Keys - Referenced(files) ==> (blobs - gone).Keys == Referenced(files)
  {
    forall p | p in files ensures files[p].hash in blobs - gone {
      assert files[p].hash in Referenced(files);
    }
  }
}
