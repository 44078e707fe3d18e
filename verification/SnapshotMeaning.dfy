/** What the store answers resolves as what it was sent: blanking the secrets' plain values costs
    nothing. */
module SnapshotMeaning {
  import opened Common
  import opened Snapshots
  import opened SnapshotStore
  import opened SnapshotRuns
  import Resolve

  /** c says of every variable, whoever decrypts and whatever is built in, what snap says, and
      holds no plain value of a secret. */
  ghost predicate Means(c: Snapshot, snap: Snapshot) {
    && c.revision == snap.revision && c.serverID == snap.serverID && c.serverName == snap.serverName
    && c.orgID == snap.orgID && Clean(c)
    && (forall builtins, decrypt, name ::
          Resolve.Effective(c, builtins, decrypt, name) == Resolve.Effective(snap, builtins, decrypt, name))
    && (forall decrypt ::
          && Resolve.Undecryptable(c.org, Org, decrypt) == Resolve.Undecryptable(snap.org, Org, decrypt)
          && Resolve.Undecryptable(c.server, Server, decrypt) == Resolve.Undecryptable(snap.server, Server, decrypt))
    && Resolve.Missing(c.org, Org) == Resolve.Missing(snap.org, Org)
    && Resolve.Missing(c.server, Server) == Resolve.Missing(snap.server, Server)
  }

  lemma {:induction false} AppliedAlike(was: Option<Resolve.Value>, list: seq<SharedVar>, scope: Scope,
                                        decrypt: Resolve.Decrypter, name: string)
    ensures Resolve.Applied(was, ScrubbedList(list), scope, decrypt, name)
         == Resolve.Applied(was, list, scope, decrypt, name)
  {
    if list != [] {
      var init := list[..|list| - 1];
      assert ScrubbedList(list)[..|list| - 1] == ScrubbedList(init);
      AppliedAlike(was, init, scope, decrypt, name);
    }
  }

  lemma {:induction false} RefsAlike(list: seq<SharedVar>, scope: Scope, p: SharedVar -> bool)
    requires forall v :: p(ScrubbedVar(v)) == p(v)
    ensures Resolve.RefsIf(ScrubbedList(list), scope, p) == Resolve.RefsIf(list, scope, p)
  {
    if list != [] {
      var init := list[..|list| - 1];
      assert ScrubbedList(list)[..|list| - 1] == ScrubbedList(init);
      RefsAlike(init, scope, p);
    }
  }

  lemma ScrubbedMeansTheSame(snap: Snapshot)
    ensures Means(Scrubbed(snap), snap)
  {
    var c := Scrubbed(snap);
    forall builtins: map<string, string>, decrypt, name
      ensures Resolve.Effective(c, builtins, decrypt, name) == Resolve.Effective(snap, builtins, decrypt, name)
    {
      var b := if name in builtins then Some(Resolve.Value(builtins[name], false, Resolve.Builtin)) else None;
      AppliedAlike(b, snap.org, Org, decrypt, name);
      AppliedAlike(Resolve.Applied(b, snap.org, Org, decrypt, name), snap.server, Server, decrypt, name);
    }
    forall decrypt
      ensures Resolve.Undecryptable(c.org, Org, decrypt) == Resolve.Undecryptable(snap.org, Org, decrypt)
      ensures Resolve.Undecryptable(c.server, Server, decrypt) == Resolve.Undecryptable(snap.server, Server, decrypt)
    {
      RefsAlike(snap.org, Org, v => Resolve.IsUndecryptable(v, decrypt));
      RefsAlike(snap.server, Server, v => Resolve.IsUndecryptable(v, decrypt));
    }
    RefsAlike(snap.org, Org, v => Resolve.IsMissing(v));
    RefsAlike(snap.server, Server, v => Resolve.IsMissing(v));
  }

  /** After an Apply that answered true, what Current answers, in this process or after a restart,
      means what was sent. */
  lemma ApplyKeepsMeaning(cur: Snapshot, file: File, snap: Snapshot, fails: Failure)
    requires ApplyTo(cur, file, snap, fails).r == Kept
    ensures var o := ApplyTo(cur, file, snap, fails);
            && (forall readable :: Means(LoadedFrom(o.cur, true, o.file, readable), snap))
            && Means(LoadedFrom(ZERO, false, o.file, true), snap)
  {
    ScrubbedMeansTheSame(snap);
    hide Means;
  }

  // ---- Over whole runs ----

  /** c is nothing, or means some snapshot sent before step n. */
  ghost predicate WasSent(steps: seq<Step>, n: nat, c: Snapshot) {
    c == ZERO || exists k :: 0 <= k < n && k < |steps| && steps[k].ApplyStart? && c == Scrubbed(steps[k].snap)
  }

  ghost predicate AllSent(steps: seq<Step>, n: nat, x: State) {
    && WasSent(steps, n, Content(x.file))
    && (forall i :: 0 <= i < |x.undone| ==> WasSent(steps, n, Content(x.undone[i])))
    && (x.p.Up? ==> WasSent(steps, n, x.p.cur) && (x.p.work.Writing? ==> WasSent(steps, n, x.p.work.snap)))
  }

  lemma SentStays(steps: seq<Step>, n: nat, c: Snapshot)
    requires WasSent(steps, n, c)
    ensures WasSent(steps, n + 1, c)
  {
  }

  lemma AllSentStep(steps: seq<Step>, n: nat, x: State)
    requires n < |steps| && Enabled(x, steps[n]) && AllSent(steps, n, x)
    ensures AllSent(steps, n + 1, Do(x, steps[n]))
  {
    forall c | WasSent(steps, n, c) ensures WasSent(steps, n + 1, c) { SentStays(steps, n, c); }
    if steps[n].ApplyStart? { assert WasSent(steps, n + 1, Scrubbed(steps[n].snap)); }
    hide WasSent;
  }

  lemma {:induction false} EveryFileWasSent(states: seq<State>, steps: seq<Step>, n: nat)
    requires RunOf(states, steps) && n <= |steps|
    ensures AllSent(steps, n, states[n])
  {
    if n > 0 {
      EveryFileWasSent(states, steps, n - 1);
      assert Enabled(states[n - 1], steps[n - 1]);
      AllSentStep(steps, n - 1, states[n - 1]);
    }
  }

  /** Whatever crashes and losses there were, Current answers nothing at all or what means a
      snapshot that an Apply was sent, whole. */
  lemma CurrentMeansWhatWasSent(states: seq<State>, steps: seq<Step>, n: nat, readable: bool)
    requires RunOf(states, steps) && n < |steps| && steps[n] == Current(readable) && states[n].p.Up?
    ensures var c := Load(states[n], readable);
            c == ZERO || exists k :: 0 <= k < n && steps[k].ApplyStart? && Means(c, steps[k].snap)
  {
    EveryFileWasSent(states, steps, n);
    var c := Load(states[n], readable);
    assert WasSent(steps, n, c);
    hide Means;
    if c != ZERO {
      var k :| 0 <= k < n && steps[k].ApplyStart? && c == Scrubbed(steps[k].snap);
      ScrubbedMeansTheSame(steps[k].snap);
    }
  }
}
