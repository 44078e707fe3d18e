/** internal/infra/vars/store.go: the stored snapshot in memory and in its file. */
module SnapshotStore {
  import opened Snapshots

  /** What a read of the path yields: JSON is read back as it was written. */
  datatype File = Missing | Stored(snap: Snapshot)

  /** The steps of writeFileAtomic, in order; each may fail. */
  datatype Stage = MkDir | CreateTemp | Chmod | Write | Sync | Close | Rename | SyncDir

  predicate BeforeRename(s: Stage) { s != SyncDir }

  function Content(f: File): Snapshot { match f case Missing => ZERO case Stored(s) => s }

  /** Where the outside world makes writeFileAtomic stop, if anywhere. */
  datatype Failure = Nowhere | At(stage: Stage)

  /** The outcome of an Apply. */
  datatype Applied = Kept | NotStored | WriteError

  /** What is in memory once the file was read; readable: whether it can be, and parses. */
  function LoadedFrom(cur: Snapshot, loaded: bool, file: File, readable: bool): Snapshot {
    if loaded || !readable || file.Missing? then cur else file.snap
  }

  datatype Outcome = Outcome(cur: Snapshot, file: File, r: Applied)

  /** Memory, file and answer after an Apply on what is in memory and in the file. */
  function ApplyTo(cur: Snapshot, file: File, snap: Snapshot, fails: Failure): Outcome {
    var clean := Scrubbed(snap);
    if clean.revision < cur.revision then Outcome(cur, file, NotStored)
    else if fails.At? && BeforeRename(fails.stage) then Outcome(cur, file, WriteError)
    else Outcome(clean, Stored(clean), Kept)
  }

  class Store {
    var cur: Snapshot
    var loaded: bool
    var file: File  // the file at path

    constructor (file: File)
      ensures this.file == file && !loaded && cur == ZERO
    {
      cur, loaded, this.file := ZERO, false, file;
    }

    /** loadLocked. */
    method Load(readable: bool)
      modifies this`cur, this`loaded
      ensures loaded && cur == LoadedFrom(old(cur), old(loaded), file, readable)
    {
      if loaded { return; }
      loaded := true;
      if !readable || file.Missing? { return; }
      cur := file.snap;
    }

    /** The revision and values Current answers. */
    method Current(readable: bool) returns (snap: Snapshot)
      modifies this`cur, this`loaded
      ensures loaded && snap == cur == LoadedFrom(old(cur), old(loaded), file, readable)
    {
      Load(readable);
      snap := cur;
    }

    method ScrubList(vars: seq<SharedVar>) returns (out: seq<SharedVar>)
      ensures out == ScrubbedList(vars) && NoPlainSecret(out) && |out| == |vars|
      ensures forall i :: 0 <= i < |vars| ==>
                && out[i].name == vars[i].name && out[i].isSecret == vars[i].isSecret
                && out[i].ciphertext == vars[i].ciphertext
                && out[i].value == if vars[i].isSecret then "" else vars[i].value
    {
      out := vars;
      for i := 0 to |out|
        invariant |out| == |vars|
        invariant forall k :: 0 <= k < |vars| ==> out[k] == if k < i then ScrubbedVar(vars[k]) else vars[k]
      {
        if out[i].isSecret { out := out[i := out[i].(value := "")]; }
      }
    }

    /** writeFileAtomic: a failure before the rename leaves the old file. */
    method WriteFile(snap: Snapshot, fails: Failure) returns (ok: bool)
      modifies this`file
      ensures ok <==> fails == Nowhere || fails == At(SyncDir)
      ensures file == if ok then Stored(snap) else old(file)
    {
      if fails.At? && BeforeRename(fails.stage) { return false; }
      file := Stored(snap);
      return true;
    }

    /** An Apply, stopped where fails says. */
    method Apply(snap: Snapshot, readable: bool, fails: Failure) returns (r: Applied)
      modifies this
      ensures loaded
      ensures Outcome(cur, file, r) ==
              ApplyTo(LoadedFrom(old(cur), old(loaded), old(file), readable), old(file), snap, fails)
      ensures var before := LoadedFrom(old(cur), old(loaded), old(file), readable);
              && (r == NotStored <==> snap.revision < before.revision)
              && (r == Kept ==> cur == Scrubbed(snap) && file == Stored(Scrubbed(snap)) && Clean(cur))
              && (r != Kept ==> cur == before && file == old(file))
      ensures r == WriteError <==> r != NotStored && fails.At? && BeforeRename(fails.stage)
      ensures cur.revision >= old(cur).revision || !old(loaded)
    {
      Load(readable);
      var org := ScrubList(snap.org);
      var server := ScrubList(snap.server);
      var clean := snap.(org := org, server := server);
      if clean.revision < cur.revision { return NotStored; }
      var ok := WriteFile(clean, fails);
      if !ok { return WriteError; }
      cur := clean;
      return Kept;
    }
  }
}
