/** The snapshot store over whole runs: applies stopped by an error or a crash at any file
    operation, restarts, and power losses that may undo a rename whose directory entry was
    not synced yet. */
module SnapshotRuns {
  import opened Snapshots
  import opened SnapshotStore

  /** An Apply under way: what it writes, the next operation of writeFileAtomic. */
  datatype Work = Idle | Writing(snap: Snapshot, next: Stage)

  datatype Process = Down | Up(cur: Snapshot, loaded: bool, work: Work)

  datatype State = State(
    file: File,              // what the path holds
    undone: seq<File>,       // what it held since it was last synced, oldest first: a power loss may bring any back
    p: Process,
    safe: nat,               // history: how many of undone are older than an answer
    seen: seq<int>,          // history: the revisions Current answered
    kept: seq<int>)          // history: the revisions of the applies that answered true

  datatype Step =
    | Boot
    | Current(readable: bool)
    | ApplyStart(snap: Snapshot, readable: bool)
    | Advance                          // the next file operation succeeds
    | Fail                             // it fails
    | Crash
    | PowerLoss(to: nat)               // undone[to] is back, or nothing is undone

  ghost predicate Init(x: State) {
    x.file == Missing && x.undone == [] && x.p == Down && x.safe == 0 && x.seen == [] && x.kept == []
  }

  predicate Enabled(x: State, e: Step) {
    match e
    case Boot => x.p.Down?
    case Current(_) => x.p.Up? && x.p.work.Idle?
    case ApplyStart(_, _) => x.p.Up? && x.p.work.Idle?
    case Advance => x.p.Up? && x.p.work.Writing?
    case Fail => x.p.Up? && x.p.work.Writing?
    case Crash => true
    case PowerLoss(_) => true
  }

  function Load(x: State, readable: bool): Snapshot
    requires x.p.Up?
  {
    LoadedFrom(x.p.cur, x.p.loaded, x.file, readable)
  }

  function After(s: Stage): Stage {
    match s
    case MkDir => CreateTemp
    case CreateTemp => Chmod
    case Chmod => Write
    case Write => Sync
    case Sync => Close
    case Close => Rename
    case Rename => SyncDir
    case SyncDir => SyncDir
  }

  /** Apply answers true; synced: the directory sync, whose error is ignored, succeeded. */
  function Keep(x: State, synced: bool): State
    requires x.p.Up? && x.p.work.Writing?
  {
    x.(p := Up(x.p.work.snap, true, Idle), kept := x.kept + [x.p.work.snap.revision],
       undone := if synced then [] else x.undone, safe := if synced then 0 else |x.undone|)
  }

  function Do(x: State, e: Step): State
    requires Enabled(x, e)
  {
    match e
    case Boot => x.(p := Up(ZERO, false, Idle))
    case Current(readable) =>
      var cur := Load(x, readable);
      x.(p := Up(cur, true, Idle), seen := x.seen + [cur.revision], safe := |x.undone|)
    case ApplyStart(snap, readable) =>
      var cur := Load(x, readable);
      var clean := Scrubbed(snap);
      x.(p := Up(cur, true, if clean.revision < cur.revision then Idle else Writing(clean, MkDir)))
    case Advance =>
      var w := x.p.work;
      if w.next == SyncDir then Keep(x, true)
      else if w.next == Rename then
        x.(p := x.p.(work := Writing(w.snap, SyncDir)), file := Stored(w.snap), undone := x.undone + [x.file])
      else x.(p := x.p.(work := Writing(w.snap, After(w.next))))
    case Fail => if x.p.work.next == SyncDir then Keep(x, false) else x.(p := x.p.(work := Idle))
    case Crash => x.(p := Down)
    case PowerLoss(to) =>
      x.(p := Down, file := Back(x, to), undone := [], safe := 0)
  }

  function Floor(xs: seq<int>): int {
    if xs == [] then 0 else if xs[|xs| - 1] > Floor(xs[..|xs| - 1]) then xs[|xs| - 1] else Floor(xs[..|xs| - 1])
  }

  /** The highest revision Current or a true Apply ever answered. */
  function Promised(x: State): int { if Floor(x.seen) > Floor(x.kept) then Floor(x.seen) else Floor(x.kept) }

  lemma FloorSnoc(xs: seq<int>, v: int)
    ensures Floor(xs + [v]) == if v > Floor(xs) then v else Floor(xs)
  {
    assert (xs + [v])[..|xs|] == xs;
  }

  /** An outside answer the store's promises rest on: the file is readable, and a power loss
      undoes no rename out of which Current or Apply has answered. */
  predicate Kind(x: State, e: Step) {
    match e
    case Current(readable) => readable
    case ApplyStart(_, readable) => readable
    case PowerLoss(to) => to >= x.safe
    case _ => true
  }

  ghost predicate Inv(x: State) { InvFile(x) && InvProcess(x) }

  /** The path's files since the last sync only grow newer, and those not safe to lose have
      everything promised. */
  ghost predicate InvFile(x: State) {
    && Clean(Content(x.file)) && Promised(x) <= Content(x.file).revision
    && x.safe <= |x.undone|
    && (forall i :: 0 <= i < |x.undone| ==> Clean(Content(x.undone[i])) && Older(x.undone[i], x.file))
    && (forall i, j :: 0 <= i < j < |x.undone| ==> Older(x.undone[i], x.undone[j]))
    && (forall i :: x.safe <= i < |x.undone| ==> Promised(x) <= Content(x.undone[i]).revision)
  }

  predicate Older(f: File, g: File) { Content(f).revision <= Content(g).revision }

  ghost predicate InvProcess(x: State) {
    x.p.Up? ==>
      && Clean(x.p.cur)
      && (x.p.work.Idle? && x.p.loaded ==> x.p.cur == Content(x.file))
      && (x.p.work.Idle? && !x.p.loaded ==> x.p.cur == ZERO)
      && (x.p.work.Writing? ==> x.p.loaded && Clean(x.p.work.snap))
      && (x.p.work.Writing? ==> x.p.work.snap.revision >= x.p.cur.revision >= Promised(x))
      && (x.p.work.Writing? && x.p.work.next == SyncDir ==> x.file == Stored(x.p.work.snap))
      && (x.p.work.Writing? && x.p.work.next != SyncDir ==> x.p.cur == Content(x.file))
  }

  lemma InvStep(x: State, e: Step)
    requires Inv(x) && Enabled(x, e) && Kind(x, e)
    ensures Inv(Do(x, e))
    ensures e.Current? ==> Do(x, e).seen[|x.seen|] >= Promised(x)
  {
    match e
    case Current(readable) => InvCurrent(x, readable);
    case ApplyStart(snap, readable) => InvApplyStart(x, snap, readable);
    case Advance => InvWrites(x, e);
    case Fail => InvWrites(x, e);
    case _ =>
      hide Floor;
      hide Clean;
  }

  lemma InvCurrent(x: State, readable: bool)
    requires Inv(x) && Enabled(x, Current(readable)) && readable
    ensures Inv(Do(x, Current(readable))) && Load(x, readable).revision >= Promised(x)
  {
    var y := Do(x, Current(readable));
    var cur := Load(x, readable);
    hide Clean;
    assert cur == Content(x.file);
    FloorSnoc(x.seen, cur.revision);
    assert Promised(y) == cur.revision;
    hide Floor;
    hide Promised;
  }

  lemma InvApplyStart(x: State, snap: Snapshot, readable: bool)
    requires Inv(x) && Enabled(x, ApplyStart(snap, readable)) && readable
    ensures Inv(Do(x, ApplyStart(snap, readable)))
  {
    assert Clean(Scrubbed(snap));
    hide Scrubbed;
    hide Floor;
    hide Clean;
  }

  lemma InvWrites(x: State, e: Step)
    requires Inv(x) && Enabled(x, e) && (e.Advance? || e.Fail?)
    ensures Inv(Do(x, e))
  {
    if x.p.work.next == SyncDir {
      InvKept(x, e.Advance?);
    } else {
      hide Floor;
      hide Clean;
    }
  }

  lemma InvKept(x: State, synced: bool)
    requires Inv(x) && x.p.Up? && x.p.work.Writing? && x.p.work.next == SyncDir
    ensures Inv(Keep(x, synced))
  {
    FloorSnoc(x.kept, x.p.work.snap.revision);
    hide Floor;
    hide Clean;
  }

  ghost predicate RunOf(states: seq<State>, steps: seq<Step>) {
    && |states| == |steps| + 1 && Init(states[0])
    && forall i :: 0 <= i < |steps| ==> Enabled(states[i], steps[i]) && states[i + 1] == Do(states[i], steps[i])
  }

  ghost predicate KindUpTo(states: seq<State>, steps: seq<Step>, n: nat)
    requires |states| == |steps| + 1
  {
    forall i :: 0 <= i < n && i < |steps| ==> Kind(states[i], steps[i])
  }

  lemma {:induction false} EveryState(states: seq<State>, steps: seq<Step>, i: nat)
    requires RunOf(states, steps) && i < |states| && KindUpTo(states, steps, i)
    ensures Inv(states[i])
  {
    if i > 0 {
      EveryState(states, steps, i - 1);
      InvStep(states[i - 1], steps[i - 1]);
    }
  }

  lemma {:induction false} FloorCovers(xs: seq<int>, i: nat)
    requires i < |xs|
    ensures xs[i] <= Floor(xs)
  {
    if i < |xs| - 1 { FloorCovers(xs[..|xs| - 1], i); }
  }

  /** Every revision Current answers is at least every one it answered before and every one
      an Apply had answered true for. */
  lemma RevisionNeverGoesDown(states: seq<State>, steps: seq<Step>, i: nat)
    requires RunOf(states, steps) && i < |steps| && steps[i].Current? && KindUpTo(states, steps, i + 1)
    ensures var now := states[i + 1].seen[|states[i].seen|];
            (forall k :: 0 <= k < |states[i].seen| ==> states[i].seen[k] <= now)
            && (forall k :: 0 <= k < |states[i].kept| ==> states[i].kept[k] <= now)
  {
    var x := states[i];
    EveryState(states, steps, i);
    assert Enabled(x, steps[i]) && Kind(x, steps[i]);
    InvStep(x, steps[i]);
    forall k | 0 <= k < |x.seen| ensures x.seen[k] <= Promised(x) { FloorCovers(x.seen, k); }
    forall k | 0 <= k < |x.kept| ensures x.kept[k] <= Promised(x) { FloorCovers(x.kept, k); }
  }

  /** Once loaded, and outside Apply, memory is the file; neither ever holds a secret's plain
      value. */
  lemma MemoryIsDisk(states: seq<State>, steps: seq<Step>, i: nat)
    requires RunOf(states, steps) && i < |states| && KindUpTo(states, steps, i)
    ensures var x := states[i];
            && Clean(Content(x.file)) && (x.p.Up? ==> Clean(x.p.cur))
            && (x.p.Up? && x.p.loaded && x.p.work.Idle? ==> x.p.cur == Content(x.file))
  {
    EveryState(states, steps, i);
  }

  // ---- Unreadable files ----

  /** The first Current of a process keeps the promise exactly when the file is readable, or
      nothing was promised. */
  lemma UnreadableFileForgets(x: State, readable: bool)
    requires Inv(x) && x.p == Up(ZERO, false, Idle)
    ensures Do(x, Current(readable)).seen[|x.seen|] >= Promised(x) <==> readable || Promised(x) == 0
  {
    FloorNonNegative(x.seen);
  }

  /** And its first Apply takes a snapshot older than promised exactly when the file is
      unreadable and the snapshot not older than none. */
  lemma UnreadableFileTakesOlder(x: State, snap: Snapshot, readable: bool)
    requires Inv(x) && x.p == Up(ZERO, false, Idle)
    ensures Do(x, ApplyStart(snap, readable)).p.work.Writing? && snap.revision < Promised(x)
            <==> !readable && 0 <= snap.revision < Promised(x)
  {
    FloorNonNegative(x.seen);
  }

  lemma {:induction false} FloorNonNegative(xs: seq<int>)
    ensures Floor(xs) >= 0
  {
    if xs != [] { FloorNonNegative(xs[..|xs| - 1]); }
  }

  // ---- Power losses ----

  /** A step that answers from the file: Current, or an Apply that answers true. */
  predicate Answers(x: State, e: Step) {
    e.Current? || ((e.Advance? || e.Fail?) && x.p.Up? && x.p.work.Writing? && x.p.work.next == SyncDir)
  }

  /** A step after which the file is on disk: the directory was synced, or a power loss decided. */
  predicate Syncs(x: State, e: Step) {
    e.PowerLoss? || (e.Advance? && x.p.Up? && x.p.work.Writing? && x.p.work.next == SyncDir)
  }

  /** When the file was last synced, by state i. */
  function LastSync(states: seq<State>, steps: seq<Step>, i: nat): (n: nat)
    requires i <= |steps| < |states|
    ensures n <= i
  {
    if i == 0 || Syncs(states[i - 1], steps[i - 1]) then i else LastSync(states, steps, i - 1)
  }

  lemma {:induction false} OldestIsSynced(states: seq<State>, steps: seq<Step>, i: nat)
    requires RunOf(states, steps) && i <= |steps|
    ensures (states[i].undone + [states[i].file])[0] == states[LastSync(states, steps, i)].file
  {
    if i > 0 {
      OldestIsSynced(states, steps, i - 1);
      assert Enabled(states[i - 1], steps[i - 1]) && states[i] == Do(states[i - 1], steps[i - 1]);
    }
  }

  /** After e and a restart, Current answers an older revision than was answered before. */
  ghost predicate Forgets(x: State, e: Step)
    requires Enabled(x, e) && Do(x, e).p.Down?
  {
    var now := Do(Do(Do(x, e), Boot), Current(true)).seen[|x.seen|];
    (exists k :: 0 <= k < |x.seen| && x.seen[k] > now) || (exists k :: 0 <= k < |x.kept| && x.kept[k] > now)
  }

  /** Right after an answer, some power loss makes the store forget it exactly when the file is
      newer than when it was last synced: the renames since then had no directory sync that
      succeeded. */
  lemma PowerLossForgets(states: seq<State>, steps: seq<Step>, i: nat)
    requires RunOf(states, steps) && 0 < i <= |steps|
    requires KindUpTo(states, steps, i) && Answers(states[i - 1], steps[i - 1])
    ensures (exists to: nat :: Forgets(states[i], PowerLoss(to))) <==>
            Content(states[LastSync(states, steps, i)].file).revision < Content(states[i].file).revision
  {
    var x := states[i];
    var past := x.undone + [x.file];
    EveryState(states, steps, i);
    JustAnswered(states, steps, i);
    OldestIsSynced(states, steps, i);
    assert forall j :: 0 <= j < |past| ==> Older(past[0], past[j]);
    hide Inv;
    hide Forgets;
    hide FileIsNewest;
    forall to: nat ensures Forgets(x, PowerLoss(to)) <==> Content(Back(x, to)).revision < Content(x.file).revision {
      ForgetsIff(x, to);
      assert Older(past[0], Back(x, to));
    }
    assert Back(x, 0) == past[0];
  }

  /** The file after a power loss. */
  function Back(x: State, to: nat): File { if to < |x.undone| then x.undone[to] else x.file }

  /** No answer was newer than the file, and the last one was it. */
  ghost predicate FileIsNewest(x: State) {
    var r := Content(x.file).revision;
    && (forall k :: 0 <= k < |x.seen| ==> x.seen[k] <= r) && (forall k :: 0 <= k < |x.kept| ==> x.kept[k] <= r)
    && LastIsFile(x)
  }

  lemma ForgetsIff(x: State, to: nat)
    requires FileIsNewest(x)
    ensures Forgets(x, PowerLoss(to)) <==> Content(Back(x, to)).revision < Content(x.file).revision
  {
    assert Do(Do(Do(x, PowerLoss(to)), Boot), Current(true)).seen[|x.seen|] == Content(Back(x, to)).revision;
    hide Do;
  }

  ghost predicate LastIsFile(x: State) {
    var r := Content(x.file).revision;
    (x.seen != [] && x.seen[|x.seen| - 1] == r) || (x.kept != [] && x.kept[|x.kept| - 1] == r)
  }

  lemma JustAnswered(states: seq<State>, steps: seq<Step>, i: nat)
    requires RunOf(states, steps) && 0 < i <= |steps|
    requires KindUpTo(states, steps, i) && Answers(states[i - 1], steps[i - 1])
    ensures FileIsNewest(states[i])
  {
    EveryState(states, steps, i - 1);
    EveryState(states, steps, i);
    var x, e := states[i - 1], steps[i - 1];
    assert Enabled(x, e) && states[i] == Do(x, e) && Kind(x, e) && Inv(x) && Inv(states[i]);
    hide *;
    AnswersTheFile(x, e);
    NothingNewer(states[i]);
  }

  lemma AnswersTheFile(x: State, e: Step)
    requires Inv(x) && Enabled(x, e) && Kind(x, e) && Answers(x, e)
    ensures LastIsFile(Do(x, e))
  {
    hide Clean;
    hide InvFile;
  }

  lemma NothingNewer(x: State)
    requires Inv(x) && LastIsFile(x)
    ensures FileIsNewest(x)
  {
    assert Promised(x) <= Content(x.file).revision;
    assert Floor(x.seen) <= Promised(x) && Floor(x.kept) <= Promised(x);
    hide Inv;
    hide Promised;
    hide Floor;
    forall k | 0 <= k < |x.seen| ensures x.seen[k] <= Floor(x.seen) { FloorCovers(x.seen, k); }
    forall k | 0 <= k < |x.kept| ensures x.kept[k] <= Floor(x.kept) { FloorCovers(x.kept, k); }
  }

  // ---- The steps of an Apply ----

  function Index(s: Stage): nat {
    match s
    case MkDir => 0
    case CreateTemp => 1
    case Chmod => 2
    case Write => 3
    case Sync => 4
    case Close => 5
    case Rename => 6
    case SyncDir => 7
  }

  /** The write from stage s on, up to where it fails. */
  function WriteSteps(s: Stage, fails: Failure): seq<Step>
    decreases 7 - Index(s)
  {
    if fails == At(s) then [Fail] else if s == SyncDir then [Advance] else [Advance] + WriteSteps(After(s), fails)
  }

  function ApplySteps(x: State, snap: Snapshot, readable: bool, fails: Failure): seq<Step>
    requires x.p.Up?
  {
    [ApplyStart(snap, readable)] +
    if Scrubbed(snap).revision < Load(x, readable).revision then [] else WriteSteps(MkDir, fails)
  }

  lemma FirstStep(x: State, e: Step, es: seq<Step>)
    requires Enabled(x, e) && Path(Do(x, e), es)
    ensures Path(x, [e] + es) && EndOf(x, [e] + es) == EndOf(Do(x, e), es)
  {
    assert ([e] + es)[1..] == es;
  }

  lemma OneStep(x: State, e: Step)
    requires Enabled(x, e)
    ensures Path(x, [e]) && EndOf(x, [e]) == Do(x, e)
  {
    assert [e][1..] == [] && Path(Do(x, e), []);
  }

  lemma {:induction false} WriteEnds(x: State, s: Stage, fails: Failure)
    requires x.p.Up? && x.p.work.Writing? && x.p.work.next == s && (fails.At? ==> Index(fails.stage) >= Index(s))
    requires s == SyncDir ==> x.file == Stored(x.p.work.snap)
    ensures Path(x, WriteSteps(s, fails))
    ensures var y := EndOf(x, WriteSteps(s, fails));
            var kept := !(fails.At? && BeforeRename(fails.stage));
            && y.p == Up(if kept then x.p.work.snap else x.p.cur, if kept then true else x.p.loaded, Idle)
            && y.file == (if kept then Stored(x.p.work.snap) else x.file)
            && y.kept == (if kept then x.kept + [x.p.work.snap.revision] else x.kept) && y.seen == x.seen
    decreases 7 - Index(s)
  {
    if fails == At(s) {
      OneStep(x, Fail);
    } else if s == SyncDir {
      OneStep(x, Advance);
    } else {
      WriteEnds(Do(x, Advance), After(s), fails);
      FirstStep(x, Advance, WriteSteps(After(s), fails));
    }
  }

  /** The steps of one Apply, run to their end, do to memory and file what Store.Apply does. */
  lemma StepsAreApply(x: State, snap: Snapshot, readable: bool, fails: Failure)
    requires x.p.Up? && x.p.work.Idle?
    ensures Path(x, ApplySteps(x, snap, readable, fails))
    ensures var y := EndOf(x, ApplySteps(x, snap, readable, fails));
            var o := ApplyTo(Load(x, readable), x.file, snap, fails);
            && y.p == Up(o.cur, true, Idle) && y.file == o.file
            && y.kept == (if o.r == Kept then x.kept + [snap.revision] else x.kept) && y.seen == x.seen
  {
    var e := ApplyStart(snap, readable);
    var begun := Do(x, e);
    if Scrubbed(snap).revision < Load(x, readable).revision {
      OneStep(x, e);
      assert [e] + [] == [e];
    } else {
      WriteEnds(begun, MkDir, fails);
      FirstStep(x, e, WriteSteps(MkDir, fails));
    }
  }

  // ---- Reachable losses ----

  lemma Extend(states: seq<State>, steps: seq<Step>, e: Step) returns (more: seq<State>)
    requires RunOf(states, steps) && Enabled(states[|steps|], e)
    ensures more == states + [Do(states[|steps|], e)] && RunOf(more, steps + [e])
  {
    more := states + [Do(states[|steps|], e)];
  }

  lemma {:induction false} Reaches(states: seq<State>, steps: seq<Step>, es: seq<Step>, x: State)
    requires RunOf(states, steps) && x == states[|steps|] && Path(x, es)
    ensures exists more: seq<State> :: RunOf(more, steps + es) && more[|steps + es|] == EndOf(x, es)
    decreases |es|
  {
    if es == [] {
      assert steps + es == steps;
    } else {
      var next := Extend(states, steps, es[0]);
      Reaches(next, steps + [es[0]], es[1..], Do(x, es[0]));
      assert steps + [es[0]] + es[1..] == steps + es;
    }
  }

  predicate Path(x: State, es: seq<Step>)
    decreases |es|
  {
    es == [] || (Enabled(x, es[0]) && Path(Do(x, es[0]), es[1..]))
  }

  function EndOf(x: State, es: seq<Step>): State
    requires Path(x, es)
    decreases |es|
  {
    if es == [] then x else EndOf(Do(x, es[0]), es[1..])
  }

  const START := State(Missing, [], Down, 0, [], [])

  ghost predicate Reachable(x: State) {
    exists states: seq<State>, steps: seq<Step> :: RunOf(states, steps) && x == states[|steps|]
  }

  lemma ReachablePath(x: State, es: seq<Step>)
    requires Reachable(x) && Path(x, es)
    ensures Reachable(EndOf(x, es))
  {
    var states, steps :| RunOf(states, steps) && x == states[|steps|];
    Reaches(states, steps, es, x);
  }

  /** A process that stored a snapshot, whether or not the directory sync succeeded. */
  lemma Stores(snap: Snapshot, fails: Failure) returns (x: State)
    requires snap.revision > 0 && (fails == Nowhere || fails == At(SyncDir))
    ensures Reachable(x) && x.kept == [snap.revision] && x.seen == [] && x.p.Up? && x.file == Stored(Scrubbed(snap))
    ensures fails == At(SyncDir) ==> x.undone == [Missing]
  {
    assert RunOf([START], []);
    assert Reachable(START);
    OneStep(START, Boot);
    ReachablePath(START, [Boot]);
    var up := Do(START, Boot);
    StepsAreApply(up, snap, true, fails);
    ReachablePath(up, ApplySteps(up, snap, true, fails));
    x := EndOf(up, ApplySteps(up, snap, true, fails));
    if fails == At(SyncDir) { UndoneAfter(up, snap); }
  }

  lemma UndoneAfter(x: State, snap: Snapshot)
    requires x == Do(START, Boot) && snap.revision > 0
    ensures Path(x, ApplySteps(x, snap, true, At(SyncDir)))
    ensures EndOf(x, ApplySteps(x, snap, true, At(SyncDir))).undone == [Missing]
  {
    StepsAreApply(x, snap, true, At(SyncDir));
    var begun := Do(x, ApplyStart(snap, true));
    WriteEnds(begun, MkDir, At(SyncDir));
    FirstStep(x, ApplyStart(snap, true), WriteSteps(MkDir, At(SyncDir)));
    UndoneBy(begun, MkDir);
  }

  lemma {:induction false} UndoneBy(x: State, s: Stage)
    requires x.p.Up? && x.p.work.Writing? && x.p.work.next == s
    requires x.undone == if s == SyncDir then [Missing] else []
    requires s != SyncDir ==> x.file == Missing
    requires s == SyncDir ==> x.file == Stored(x.p.work.snap)
    ensures Path(x, WriteSteps(s, At(SyncDir))) && EndOf(x, WriteSteps(s, At(SyncDir))).undone == [Missing]
    decreases 7 - Index(s)
  {
    WriteEnds(x, s, At(SyncDir));
    if s == SyncDir {
      OneStep(x, Fail);
    } else {
      UndoneBy(Do(x, Advance), After(s));
      FirstStep(x, Advance, WriteSteps(After(s), At(SyncDir)));
    }
  }

  lemma ThreeSteps(x: State, e: Step)
    requires Reachable(x) && Enabled(x, e) && Do(x, e).p.Down?
    ensures forall readable :: Reachable(Do(Do(Do(x, e), Boot), Current(readable)))
  {
    OneStep(x, e);
    ReachablePath(x, [e]);
    OneStep(Do(x, e), Boot);
    ReachablePath(Do(x, e), [Boot]);
    var up := Do(Do(x, e), Boot);
    forall readable ensures Reachable(Do(up, Current(readable))) {
      OneStep(up, Current(readable));
      ReachablePath(up, [Current(readable)]);
    }
  }

  /** A failed directory sync is ignored: Apply answers true, a power loss undoes the rename,
      and the next Current answers an older revision. */
  lemma UnsyncedRenameLost(snap: Snapshot)
    requires snap.revision > 0
    ensures exists x :: Reachable(x) && x.kept == [snap.revision] && x.seen == [0]
  {
    var x := Stores(snap, At(SyncDir));
    ThreeSteps(x, PowerLoss(0));
    var y := Do(Do(Do(x, PowerLoss(0)), Boot), Current(true));
    assert y.kept == [snap.revision] && y.seen == [0];
  }

  /** So does one unreadable read, though the file is there. */
  lemma UnreadableReadForgets(snap: Snapshot)
    requires snap.revision > 0
    ensures exists x :: Reachable(x) && x.file.Stored? && x.kept == [snap.revision] && x.seen == [0]
  {
    var x := Stores(snap, Nowhere);
    ThreeSteps(x, Crash);
    var y := Do(Do(Do(x, Crash), Boot), Current(false));
    assert y.kept == [snap.revision] && y.seen == [0] && y.file.Stored?;
  }
}
