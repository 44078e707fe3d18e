/** What every run of ReloadProtocol keeps, and what it means for a waiter. */
module ReloadTheorems {
  import opened Order
  import opened ReloadWorkers
  import opened ReloadProtocol

  // ---- The queue ----

  predicate InPass(pc: Pc) {
    !pc.Select? && !pc.Woken? && !pc.Sweeping? && !pc.Halted?
  }

  predicate ResolvingBatch(pc: Pc) {
    pc.Resolving? || pc.LookingUp? || pc.LookingUpApps? || pc.Failing? || pc.LeavingOut?
  }

  /** queued is exactly the queue's apps, the queue has each once; so for out and seen.
      Resolved ids exist only while a batch is resolved, queued ones only in a pass. */
  ghost predicate Queues(w: Worker) {
    && (ResolvingBatch(w.pc) || w.out == [])
    && (InPass(w.pc) || w.queue == [])
    && w.queued == Elems(w.queue) && NoDup(w.queue)
    && (w.pc == LookingUp || w.pc == LookingUpApps ==> w.seen == Elems(w.out) && NoDup(w.out))
  }

  lemma QueuesMerged(w: Worker)
    requires Queues(w)
    ensures Queues(Merged(w)) && Elems(Merged(w).queue) == Elems(w.queue) + Elems(w.out)
  {
    AddNewKeeps(w.queue, w.queued, w.out);
  }

  lemma PopFront(q: seq<App>)
    requires q != [] && NoDup(q)
    ensures NoDup(q[1..]) && Elems(q[1..]) == Elems(q) - {q[0]} && Elems(q) == {q[0]} + Elems(q[1..])
  {
    assert q == [q[0]] + q[1..];
    ElemsConcat([q[0]], q[1..]);
  }

  lemma QueuesQuiet(w: Worker, f: Fields, done: bool, q: QuietKind)
    requires Queues(w) && QuietEnabled(w, f, q)
    ensures Queues(QuietMove(w, f, done, q))
  {
    match q
    case Resolved => QueuesMerged(w);
    case LeftOut => QueuesMerged(w);
    case LookedUp(ids) => AddNewKeeps(w.out, w.seen, ids);
    case Decide => if w.queue != [] { PopFront(w.queue); }
    case _ =>
  }

  // ---- The pass ----

  ghost predicate Pass(s: State) {
    (s.f.busy <==> InPass(s.w.pc)) && (!s.f.busy ==> s.f.dropped == {})
  }

  lemma PassQuiet(s: State, q: QuietKind)
    requires Pass(s) && Enabled(s, Quiet(q))
    ensures Pass(Do(s, Quiet(q)))
  {
  }

  lemma PassCall(s: State, c: Caller, k: CallKind)
    requires Pass(s) && CallEnabled(s, c, k)
    ensures Pass(Do(s, CallStep(c, k)))
  {
  }

  lemma PassStep(s: State, e: Step)
    requires Pass(s) && Enabled(s, e)
    ensures Pass(Do(s, e))
  {
    match e
    case Quiet(q) => PassQuiet(s, q);
    case CallStep(c, k) => PassCall(s, c, k);
    case _ =>
  }

  // ---- The wake token ----

  ghost predicate SomeSignalling(calls: map<Caller, Call>) { exists c :: c in calls && calls[c].Signalling? }

  /** Pending work always has a wake-up coming: the buffered token, a call about to send it,
      or a worker that consumed one and has not yet taken. */
  ghost predicate Awake(s: State) {
    !s.f.pending.Empty() ==> s.f.wake || SomeSignalling(s.calls) || s.w.pc == Woken || s.w.pc == Taking(true)
  }

  lemma AwakeCall(s: State, c: Caller, k: CallKind)
    requires Awake(s) && CallEnabled(s, c, k)
    ensures Awake(CallMove(s, c, k))
  {
    var t := CallMove(s, c, k);
    if k.Enqueue? || k.MergeApp? { assert t.calls[c].Signalling?; }
    else if !t.f.pending.Empty() && !k.Signal? && SomeSignalling(s.calls) {
      var d :| d in s.calls && s.calls[d].Signalling?;
      assert d in t.calls && t.calls[d].Signalling?;
    }
  }

  lemma AwakeStep(s: State, e: Step)
    requires Awake(s) && Enabled(s, e)
    ensures Awake(Do(s, e))
  {
    match e
    case CallStep(c, k) => AwakeCall(s, c, k);
    case _ =>
  }

  // ---- Who still waits ----

  /** A call of which app's waiter ch may be sure: its own EnqueueApp still to merge, or a
      Forget of the app still to take the waiters. */
  ghost predicate CallCovers(calls: map<Caller, Call>, a: App, ch: Chan) {
    (exists c :: c in calls && calls[c] == Registered(a, ch)) || (exists c :: c in calls && calls[c] == Forgetting(a))
  }

  /** The apps the worker will still come to in this pass. */
  function InHand(w: Worker): set<App> {
    Elems(w.queue) + Elems(w.out) +
    match w.pc
    case Resolving(left) => Elems(left)
    case LookingUp => w.batch.apps
    case LookingUpApps => w.batch.apps
    case Failing(left) => Elems(left)
    case LeavingOut(rest) => rest - w.seen
    case Checking(a) => {a}
    case Claiming(a) => {a}
    case _ => {}
  }

  ghost predicate Covered(s: State, a: App, ch: Chan) {
    a in s.f.pending.apps || a in InHand(s.w) || CallCovers(s.calls, a, ch)
  }

  /** Until the context ends every waiter's app is pending or in hand, or a call covers it;
      a dropped app's waiters are covered by a call alone. */
  ghost predicate Waits(s: State) {
    && (forall a, ch :: ch in s.f.WaitersOf(a) ==> s.done || Covered(s, a, ch))
    && (forall a, ch :: ch in s.f.WaitersOf(a) && a in s.f.dropped ==> CallCovers(s.calls, a, ch))
  }

  lemma CoverKept(s: State, c: Caller, k: CallKind, a: App, ch: Chan)
    requires CallEnabled(s, c, k) && CallCovers(s.calls, a, ch)
    requires k.TakeForgotten? ==> a != s.calls[c].app
    requires k.MergeApp? ==> a != s.calls[c].app
    ensures CallCovers(CallMove(s, c, k).calls, a, ch)
  {
    var t := CallMove(s, c, k);
    if d :| d in s.calls && s.calls[d] == Registered(a, ch) {
      assert d in t.calls && t.calls[d] == Registered(a, ch);
    } else {
      var d :| d in s.calls && s.calls[d] == Forgetting(a);
      assert d in t.calls && t.calls[d] == Forgetting(a);
    }
  }

  lemma WaitsCall(s: State, c: Caller, k: CallKind)
    requires Waits(s) && CallEnabled(s, c, k)
    ensures Waits(CallMove(s, c, k))
  {
    var t := CallMove(s, c, k);
    forall a, ch | ch in t.f.WaitersOf(a)
      ensures t.done || Covered(t, a, ch)
      ensures a in t.f.dropped ==> CallCovers(t.calls, a, ch)
    {
      if k.EnqueueApp? && k.app == a && k.ch == ch {
        assert t.calls[c] == Registered(a, ch);
      } else if k.Forget? && k.app == a {
        assert t.calls[c] == Forgetting(a);
      } else {
        assert ch in s.f.WaitersOf(a);
        if CallCovers(s.calls, a, ch) && !(k.MergeApp? && a == s.calls[c].app) { CoverKept(s, c, k, a, ch); }
        if k.MergeApp? { assert s.calls[c].app in Elems([s.calls[c].app]); }
      }
    }
  }

  lemma InHandQuiet(w: Worker, f: Fields, done: bool, q: QuietKind)
    requires Queues(w) && QuietEnabled(w, f, q) && !done
    ensures InHand(w) + (if q.Take? then f.pending.apps else {})
            <= InHand(QuietMove(w, f, done, q)) + (if q.Check? && w.pc.app in f.dropped then {w.pc.app} else {})
  {
    match q
    case Resolved => QueuesMerged(w);
    case LeftOut => QueuesMerged(w);
    case LookedUp(ids) => InHandLookedUp(w, f, done, ids);
    case Decide => if w.queue != [] { PopFront(w.queue); }
    case Present => InHandPresent(w, f, done);
    case Take => InHandTaken(w, f, done);
    case _ =>
  }

  lemma InHandLookedUp(w: Worker, f: Fields, done: bool, ids: seq<App>)
    requires Queues(w) && QuietEnabled(w, f, LookedUp(ids))
    ensures InHand(w) <= InHand(QuietMove(w, f, done, LookedUp(ids)))
  {
    AddNewKeeps(w.out, w.seen, ids);
  }

  lemma InHandTaken(w: Worker, f: Fields, done: bool)
    requires Queues(w) && QuietEnabled(w, f, Take)
    ensures InHand(w) + f.pending.apps <= InHand(QuietMove(w, f, done, Take))
  {
  }

  lemma InHandPresent(w: Worker, f: Fields, done: bool)
    requires QuietEnabled(w, f, Present)
    ensures InHand(w) <= InHand(QuietMove(w, f, done, Present))
  {
    assert w.pc.left == [w.pc.left[0]] + w.pc.left[1..];
    ElemsConcat([w.pc.left[0]], w.pc.left[1..]);
    ElemsConcat(w.out, [w.pc.left[0]]);
  }

  lemma WaitsQuiet(s: State, q: QuietKind)
    requires Waits(s) && Queues(s.w) && Pass(s) && Enabled(s, Quiet(q))
    ensures Waits(Move(s, Quiet(q)))
  {
    var t := Move(s, Quiet(q));
    if !s.done { InHandQuiet(s.w, s.f, s.done, q); }
    forall a, ch | ch in t.f.WaitersOf(a)
      ensures t.done || Covered(t, a, ch)
      ensures a in t.f.dropped ==> CallCovers(t.calls, a, ch)
    {
      assert ch in s.f.WaitersOf(a);
    }
  }

  lemma InHandTake(w: Worker, t: TakeKind)
    requires TakeEnabled(w, t)
    ensures InHand(w) <= InHand(TakeMove(w, t)) + {TakeApp(w, t)}
  {
    if !t.LeaveOut? {
      assert w.pc.left == [w.pc.left[0]] + w.pc.left[1..];
      ElemsConcat([w.pc.left[0]], w.pc.left[1..]);
    }
  }

  lemma WaitsStep(s: State, e: Step)
    requires Waits(s) && Queues(s.w) && Pass(s) && Enabled(s, e)
    ensures Waits(Do(s, e))
  {
    var t := Do(s, e);
    match e {
      case CallStep(c, k) => WaitsCall(s, c, k);
      case Quiet(q) => WaitsQuiet(s, q);
      case TakeFor(k) => InHandTake(s.w, k);
      case _ =>
    }
    forall a, ch | ch in t.f.WaitersOf(a)
      ensures t.done || Covered(t, a, ch)
      ensures a in t.f.dropped ==> CallCovers(t.calls, a, ch)
    {
      if e.CallStep? {
        assert ch in CallMove(s, e.c, e.k).f.WaitersOf(a);
      } else {
        assert ch in s.f.WaitersOf(a);
      }
    }
  }

  // ---- Outcomes ----

  /** An answer a registration may get: about its own app, and a reload's only when the
      reload took its waiters after the registration. */
  ghost predicate Suits(r: Registration, o: Outcome, done: bool) {
    match o
    case Reloaded(app, started, result) => r.app == app && r.at < started && (result == Cancelled ==> done)
    case Skipped(app) => r.app == app
    case LookupFailed(app) => r.app == app
    case Deleted(app) => r.app == app
    case Stopped => done
  }

  /** What each place's channels were registered for. */
  ghost predicate Placed(s: State, ch: Chan, o: Owner)
    requires ch in s.book.reg
  {
    var r := s.book.reg[ch];
    match o
    case Waiting(a) => r.app == a && (s.w.pc.Sweeping? || s.w.pc.Halted? ==> s.w.pc.sweptAt < r.at)
    case Outbox => Suits(r, s.reply, s.done)
    case Reload => s.w.pc.Reloading? ==> r.app == s.w.pc.app && r.at < s.w.pc.started
    case Sweep(a) => true
    case OfCall(c) => c in s.calls && s.calls[c].Answering? ==> r.app == s.calls[c].app
    case Answered => ch in s.book.sent ==> Suits(r, s.book.sent[ch], s.done)
  }

  ghost predicate Outcomes(s: State) {
    && s.book.owner.Keys == s.book.reg.Keys
    && (forall ch :: ch in s.book.reg ==> s.book.reg[ch].at < s.clock && Placed(s, ch, s.book.owner[ch]))
    && (s.w.pc.Sweeping? || s.w.pc.Halted? ==> s.done && s.w.pc.sweptAt < s.clock)
  }

  lemma HeldWhereOwned(s: State, ch: Chan)
    requires Owned(s) && ch in s.book.reg
    ensures var o := s.book.owner[ch];
            if o == Answered then ch in s.book.sent else ch in HeldBy(s, o) && ch !in s.book.sent
  {
    assert PlacesOf(s)(s.book.owner[ch]) == HeldBy(s, s.book.owner[ch]);
  }

  lemma OwnedWhereHeld(s: State, o: Owner, ch: Chan)
    requires Owned(s) && ch in HeldBy(s, o)
    ensures ch in s.book.reg && s.book.owner[ch] == o
  {
    assert PlacesOf(s)(o) == HeldBy(s, o);
  }

  lemma OutcomesQuietCall(s: State, c: Caller, k: CallKind)
    requires Outcomes(s) && Owned(s) && CallEnabled(s, c, k) && (k.Enqueue? || k.Signal? || k.MergeApp? || k.Forget?)
    ensures Outcomes(Do(s, CallStep(c, k)))
  {
    var t := Do(s, CallStep(c, k));
    CallFrame(s, c, k);
    forall ch | ch in t.book.reg ensures t.book.reg[ch].at < t.clock && Placed(t, ch, t.book.owner[ch]) {
      HeldWhereOwned(s, ch);
    }
  }

  lemma OutcomesEnqueueApp(s: State, c: Caller, app: App, ch: Chan)
    requires Outcomes(s) && Owned(s) && CallEnabled(s, c, EnqueueApp(app, ch))
    ensures Outcomes(Do(s, CallStep(c, EnqueueApp(app, ch))))
  {
    var t := Do(s, CallStep(c, EnqueueApp(app, ch)));
    forall x | x in t.book.reg ensures t.book.reg[x].at < t.clock && Placed(t, x, t.book.owner[x]) {
      if x != ch { HeldWhereOwned(s, x); }
    }
  }

  lemma OutcomesTakeForgotten(s: State, c: Caller)
    requires Outcomes(s) && Owned(s) && CallEnabled(s, c, TakeForgotten)
    ensures Outcomes(Do(s, CallStep(c, TakeForgotten)))
  {
    var t := Do(s, CallStep(c, TakeForgotten));
    var o := Waiting(s.calls[c].app);
    forall x | x in t.book.reg ensures t.book.reg[x].at < t.clock && Placed(t, x, t.book.owner[x]) {
      HeldWhereOwned(s, x);
      if x in HeldBy(s, o) { OwnedWhereHeld(s, o, x); }
    }
  }

  lemma AnswerFrame(s: State, c: Caller)
    requires CallEnabled(s, c, Answer)
    ensures var t, a := Do(s, CallStep(c, Answer)), s.calls[c];
            && t.w == s.w && t.reply == s.reply && t.done == s.done && t.clock > s.clock
            && t.book == s.book.Send(a.chans[0], Deleted(a.app))
    ensures var t := Do(s, CallStep(c, Answer));
            forall d :: d in t.calls && t.calls[d].Answering? ==>
              d in s.calls && s.calls[d].Answering? && t.calls[d].app == s.calls[d].app
  {
  }

  lemma AnswerPlaced(s: State, c: Caller, x: Chan)
    requires Outcomes(s) && Owned(s) && CallEnabled(s, c, Answer) && x in s.book.reg
    ensures var t := Do(s, CallStep(c, Answer)); x in t.book.reg && x in t.book.owner && Placed(t, x, t.book.owner[x])
  {
    var first := s.calls[c].chans[0];
    AnswerFrame(s, c);
    assert first in HeldBy(s, OfCall(c));
    OwnedWhereHeld(s, OfCall(c), first);
    HeldWhereOwned(s, x);
    assert Placed(s, x, s.book.owner[x]) && x in s.book.owner;
    hide Do;
    hide Enabled;
    hide CallEnabled;
    hide Owned;
    hide Outcomes;
    hide HeldBy;
    if x != first { SamePlace(s, Do(s, CallStep(c, Answer)), x, s.book.owner[x]); }
  }

  lemma SamePlace(s: State, t: State, x: Chan, o: Owner)
    requires x in s.book.reg && t.book.reg == s.book.reg && Placed(s, x, o) && t.w == s.w && t.reply == s.reply
    requires t.done == s.done && (x in t.book.sent ==> x in s.book.sent && t.book.sent[x] == s.book.sent[x])
    requires forall d :: d in t.calls && t.calls[d].Answering? ==>
               d in s.calls && s.calls[d].Answering? && t.calls[d].app == s.calls[d].app
    ensures Placed(t, x, o)
  {
  }

  lemma OutcomesAnswer(s: State, c: Caller)
    requires Outcomes(s) && Owned(s) && CallEnabled(s, c, Answer)
    ensures Outcomes(Do(s, CallStep(c, Answer)))
  {
    var t := Do(s, CallStep(c, Answer));
    AnswerFrame(s, c);
    assert t.book.reg == s.book.reg && t.book.owner.Keys == t.book.reg.Keys;
    assert t.w.pc.Sweeping? || t.w.pc.Halted? ==> t.done && t.w.pc.sweptAt < t.clock;
    assert forall x :: x in s.book.reg ==> s.book.reg[x].at < t.clock;
    hide Do;
    hide Placed;
    hide Owned;
    forall x | x in t.book.reg ensures Placed(t, x, t.book.owner[x]) { AnswerPlaced(s, c, x); }
  }

  lemma OutcomesQuiet(s: State, q: QuietKind)
    requires Outcomes(s) && Owned(s) && Enabled(s, Quiet(q))
    ensures Outcomes(Do(s, Quiet(q)))
  {
    var t := Do(s, Quiet(q));
    QuietFrame(s.w, s.f, s.done, q);
    assert t.w.pc.Sweeping? || t.w.pc.Halted? ==> q.Halt?;
    forall ch | ch in t.book.reg ensures t.book.reg[ch].at < t.clock && Placed(t, ch, t.book.owner[ch]) {
      HeldWhereOwned(s, ch);
    }
  }

  // A step that gives on the channels standing at one place.

  lemma OutcomesTakeFor(s: State, k: TakeKind)
    requires Outcomes(s) && Owned(s) && Enabled(s, TakeFor(k))
    ensures Outcomes(Do(s, TakeFor(k)))
  {
    var t := Do(s, TakeFor(k));
    forall ch | ch in t.book.reg ensures t.book.reg[ch].at < t.clock && Placed(t, ch, t.book.owner[ch]) {
      HeldWhereOwned(s, ch);
      if ch in HeldBy(s, Waiting(TakeApp(s.w, k))) { OwnedWhereHeld(s, Waiting(TakeApp(s.w, k)), ch); }
    }
  }

  lemma OutcomesClaim(s: State)
    requires Outcomes(s) && Owned(s) && Enabled(s, Claim)
    ensures Outcomes(Do(s, Claim))
  {
    var t := Do(s, Claim);
    forall ch | ch in t.book.reg ensures t.book.reg[ch].at < t.clock && Placed(t, ch, t.book.owner[ch]) {
      HeldWhereOwned(s, ch);
      if ch in HeldBy(s, Waiting(s.w.pc.app)) { OwnedWhereHeld(s, Waiting(s.w.pc.app), ch); }
    }
  }

  lemma OutcomesReloadEnds(s: State, skipped: bool, failed: bool)
    requires Outcomes(s) && Owned(s) && Enabled(s, ReloadEnds(skipped, failed))
    ensures Outcomes(Do(s, ReloadEnds(skipped, failed)))
  {
    var t := Do(s, ReloadEnds(skipped, failed));
    forall ch | ch in t.book.reg ensures t.book.reg[ch].at < t.clock && Placed(t, ch, t.book.owner[ch]) {
      HeldWhereOwned(s, ch);
      if ch in HeldBy(s, Reload) { OwnedWhereHeld(s, Reload, ch); }
    }
  }

  lemma OutcomesSweepOne(s: State, app: App)
    requires Outcomes(s) && Owned(s) && Enabled(s, SweepOne(app))
    ensures Outcomes(Do(s, SweepOne(app)))
  {
    var t := Do(s, SweepOne(app));
    forall ch | ch in t.book.reg ensures t.book.reg[ch].at < t.clock && Placed(t, ch, t.book.owner[ch]) {
      HeldWhereOwned(s, ch);
      if ch in HeldBy(s, Sweep(app)) { OwnedWhereHeld(s, Sweep(app), ch); }
    }
  }

  lemma OutcomesDeliver(s: State)
    requires Outcomes(s) && Owned(s) && Enabled(s, Deliver)
    ensures Outcomes(Do(s, Deliver))
  {
    var t := Do(s, Deliver);
    forall ch | ch in t.book.reg ensures t.book.reg[ch].at < t.clock && Placed(t, ch, t.book.owner[ch]) {
      HeldWhereOwned(s, ch);
      if ch in HeldBy(s, Outbox) { OwnedWhereHeld(s, Outbox, ch); }
    }
  }

  lemma OutcomesSweepStart(s: State)
    requires Outcomes(s) && Owned(s) && Enabled(s, SweepStart)
    ensures Outcomes(Do(s, SweepStart))
  {
    var t := Do(s, SweepStart);
    forall ch | ch in t.book.reg ensures t.book.reg[ch].at < t.clock && Placed(t, ch, t.book.owner[ch]) {
      HeldWhereOwned(s, ch);
    }
  }

  lemma OutcomesCancel(s: State)
    requires Outcomes(s)
    ensures Outcomes(Do(s, Cancel))
  {
  }

  lemma OutcomesStep(s: State, e: Step)
    requires Outcomes(s) && Owned(s) && Enabled(s, e)
    ensures Outcomes(Do(s, e))
  {
    hide Outcomes;
    hide Owned;
    match e
    case CallStep(c, k) =>
      match k {
        case EnqueueApp(app, ch) => OutcomesEnqueueApp(s, c, app, ch);
        case TakeForgotten => OutcomesTakeForgotten(s, c);
        case Answer => OutcomesAnswer(s, c);
        case _ => OutcomesQuietCall(s, c, k);
      }
    case Quiet(q) => OutcomesQuiet(s, q);
    case Cancel => OutcomesCancel(s);
    case TakeFor(k) => OutcomesTakeFor(s, k);
    case Claim => OutcomesClaim(s);
    case ReloadEnds(skipped, failed) => OutcomesReloadEnds(s, skipped, failed);
    case SweepOne(app) => OutcomesSweepOne(s, app);
    case SweepStart => OutcomesSweepStart(s);
    case Deliver => OutcomesDeliver(s);
  }

  // ---- Runs ----

  ghost predicate Inv(s: State) {
    Owned(s) && Queues(s.w) && Pass(s) && Awake(s) && Waits(s) && Outcomes(s) && Answers(s)
  }

  /** A deliver loop of Forget holds channels as long as it runs. */
  ghost predicate Answers(s: State) {
    forall c :: c in s.calls && s.calls[c].Answering? ==> s.calls[c].chans != []
  }

  lemma AnswersStep(s: State, e: Step)
    requires Answers(s) && Enabled(s, e)
    ensures Answers(Do(s, e))
  {
  }

  lemma QueuesStep(s: State, e: Step)
    requires Queues(s.w) && Enabled(s, e)
    ensures Queues(Do(s, e).w)
  {
    match e
    case Quiet(q) => QueuesQuiet(s.w, s.f, s.done, q);
    case _ =>
  }

  lemma InvInit()
    ensures Inv(INIT)
  {
  }

  lemma InvStep(s: State, e: Step)
    requires Inv(s) && Enabled(s, e)
    ensures Inv(Do(s, e))
  {
    OwnedStep(s, e);
    QueuesStep(s, e);
    PassStep(s, e);
    AwakeStep(s, e);
    WaitsStep(s, e);
    OutcomesStep(s, e);
    AnswersStep(s, e);
  }

  /** states is a run from `from`: each state is its predecessor after the step between them. */
  ghost predicate RunFrom(from: State, states: seq<State>, steps: seq<Step>) {
    && |states| == |steps| + 1 && states[0] == from
    && forall i :: 0 <= i < |steps| ==> Enabled(states[i], steps[i]) && states[i + 1] == Do(states[i], steps[i])
  }

  /** Every state of every run, in every interleaving. */
  lemma {:induction false} EveryState(states: seq<State>, steps: seq<Step>, i: nat)
    requires RunFrom(INIT, states, steps) && i < |states|
    ensures Inv(states[i])
  {
    if i == 0 {
      InvInit();
    } else {
      EveryState(states, steps, i - 1);
      InvStep(states[i - 1], steps[i - 1]);
    }
  }

  ghost predicate Reachable(s: State) {
    exists states, steps :: RunFrom(INIT, states, steps) && s == states[|steps|]
  }

  lemma InitReachable()
    ensures Reachable(INIT)
  {
    assert RunFrom(INIT, [INIT], []);
  }

  lemma ReachableStep(s: State, e: Step)
    requires Reachable(s) && Enabled(s, e)
    ensures Reachable(Do(s, e))
  {
    var states, steps :| RunFrom(INIT, states, steps) && s == states[|steps|];
    assert RunFrom(INIT, states + [Do(s, e)], steps + [e]);
  }

  lemma ReachableInv(s: State)
    requires Reachable(s)
    ensures Inv(s)
  {
    var states, steps :| RunFrom(INIT, states, steps) && s == states[|steps|];
    EveryState(states, steps, |steps|);
  }

  /** A send never finds its channel used: deliver, into a buffer of one, never blocks. */
  lemma WorkerSendNeverBlocks(s: State)
    requires Reachable(s) && Enabled(s, Deliver)
    ensures s.outbox[0] in s.book.reg && s.outbox[0] !in s.book.sent
  {
    ReachableInv(s);
    OwnedDeliver(s);
    OwnedWhereHeld(s, Outbox, s.outbox[0]);
  }

  lemma ForgetSendNeverBlocks(s: State, c: Caller)
    requires Reachable(s) && CallEnabled(s, c, Answer)
    ensures s.calls[c].chans[0] in s.book.reg && s.calls[c].chans[0] !in s.book.sent
  {
    ReachableInv(s);
    ForgetSends(s, c);
  }

  lemma ForgetSends(s: State, c: Caller)
    requires Inv(s) && CallEnabled(s, c, Answer)
    ensures s.calls[c].chans[0] in s.book.reg && s.calls[c].chans[0] !in s.book.sent
  {
    assert s.calls[c].chans[0] in HeldBy(s, OfCall(c));
    assert Owned(s);
    hide Inv;
    hide Owned;
    OwnedAnswer(s, c);
    OwnedWhereHeld(s, OfCall(c), s.calls[c].chans[0]);
  }

  /** Each registered channel has been answered or stands, once, at exactly one place. */
  lemma OneOwner(s: State, ch: Chan)
    requires Reachable(s) && ch in s.book.reg
    ensures ch in s.book.sent ==> forall o :: ch !in HeldBy(s, o)
    ensures ch !in s.book.sent ==>
            exists o, i :: (0 <= i < |HeldBy(s, o)| && HeldBy(s, o)[i] == ch
                            && forall p, j :: 0 <= j < |HeldBy(s, p)| && HeldBy(s, p)[j] == ch ==> p == o && j == i)
  {
    ReachableInv(s);
    HeldWhereOwned(s, ch);
    forall o | ch in HeldBy(s, o) ensures o == s.book.owner[ch] && NoDup(HeldBy(s, o)) {
      OwnedWhereHeld(s, o, ch);
      assert PlacesOf(s)(o) == HeldBy(s, o);
    }
    if ch !in s.book.sent {
      var o := s.book.owner[ch];
      var i :| 0 <= i < |HeldBy(s, o)| && HeldBy(s, o)[i] == ch;
      forall p, j | 0 <= j < |HeldBy(s, p)| && HeldBy(s, p)[j] == ch ensures p == o && j == i {
        assert ch in HeldBy(s, p);
      }
    }
  }

  lemma SentStandsCall(s: State, c: Caller, k: CallKind, ch: Chan)
    requires Owned(s) && CallEnabled(s, c, k) && ch in s.book.sent
    ensures var t := CallMove(s, c, k); ch in t.book.sent && t.book.sent[ch] == s.book.sent[ch]
  {
    if k == Answer { OwnedAnswer(s, c); }
    hide Owned;
  }

  lemma SentStands(s: State, e: Step, ch: Chan)
    requires Owned(s) && Enabled(s, e) && ch in s.book.sent
    ensures ch in Do(s, e).book.sent && Do(s, e).book.sent[ch] == s.book.sent[ch]
  {
    match e
    case Deliver => OwnedDeliver(s);
    case CallStep(c, k) => SentStandsCall(s, c, k, ch);
    case _ =>
  }

  /** An answer, once given, is never changed. */
  lemma {:induction false} AnswersStand(states: seq<State>, steps: seq<Step>, i: nat, j: nat, ch: Chan)
    requires RunFrom(INIT, states, steps) && i <= j < |states| && ch in states[i].book.sent
    ensures ch in states[j].book.sent && states[j].book.sent[ch] == states[i].book.sent[ch]
  {
    if i < j {
      AnswersStand(states, steps, i, j - 1, ch);
      EveryState(states, steps, j - 1);
      SentStands(states[j - 1], steps[j - 1], ch);
    }
  }

  /** An app is queued at most once, and only a pass remembers forgotten apps. */
  lemma QueuedOnceDroppedInPass(s: State)
    requires Reachable(s)
    ensures s.w.queued == Elems(s.w.queue) && NoDup(s.w.queue)
    ensures !s.f.busy ==> s.f.dropped == {} && s.w.queue == []
  {
    ReachableInv(s);
  }

  /** Pending work always has a wake-up coming. */
  lemma NoLostWakeup(s: State)
    requires Reachable(s) && !s.f.pending.Empty()
    ensures s.f.wake || SomeSignalling(s.calls) || s.w.pc == Woken || s.w.pc == Taking(true)
  {
    ReachableInv(s);
  }

  /** Until the context ends, whoever waits is still being seen to. */
  lemma NobodyStranded(s: State, a: App, ch: Chan)
    requires Reachable(s) && !s.done && ch in s.f.WaitersOf(a)
    ensures a in s.f.pending.apps || a in InHand(s.w) || CallCovers(s.calls, a, ch)
  {
    ReachableInv(s);
  }

  /** Once the calls are over and the worker sleeps with no token, everyone has been
      answered and nothing is pending. */
  lemma AsleepMeansAnswered(s: State)
    requires Reachable(s) && !s.done && s.calls == map[] && s.w.pc == Select && s.outbox == [] && !s.f.wake
    ensures s.f.pending.Empty() && forall ch :: ch in s.book.reg ==> ch in s.book.sent
  {
    ReachableInv(s);
    forall ch | ch in s.book.reg ensures ch in s.book.sent {
      HeldWhereOwned(s, ch);
      if s.book.owner[ch].Waiting? { NobodyStranded(s, s.book.owner[ch].app, ch); }
    }
  }

  /** Once Run has returned and the calls are over, a channel is unanswered only if it was
      registered after the final sweep. */
  lemma HaltedMeansAnswered(s: State, ch: Chan)
    requires Reachable(s) && s.w.pc.Halted? && s.outbox == [] && s.calls == map[]
    requires ch in s.book.reg && ch !in s.book.sent
    ensures s.w.pc.sweptAt < s.book.reg[ch].at
  {
    ReachableInv(s);
    assert Owned(s) && Outcomes(s);
    hide Inv;
    hide Reachable;
    hide Owned;
    HeldWhereOwned(s, ch);
  }

  /** What every answer is worth: it is about the registered app, a reload's went only to
      those registered before it, and cancellation is only reported once the context ended. */
  lemma AnswersAreFresh(s: State, ch: Chan)
    requires Reachable(s) && ch in s.book.sent
    ensures ch in s.book.reg && Suits(s.book.reg[ch], s.book.sent[ch], s.done)
  {
    ReachableInv(s);
  }

  /** The worker is never stuck: it sleeps, has returned, or has a step to take. */
  lemma WorkerNeverStuck(s: State)
    requires Reachable(s)
    ensures (s.w.pc == Select && !s.f.wake && !s.done && s.outbox == []) || (s.w.pc.Halted? && s.outbox == [])
            || exists e :: Enabled(s, e) && !e.CallStep? && !e.Cancel?
  {
    var e :=
      if s.outbox != [] then Deliver else
      match s.w.pc
      case Select => if s.f.wake then Quiet(Wake) else SweepStart
      case Woken => Quiet(Begin)
      case Taking(_) => Quiet(Take)
      case Resolving(left) => Quiet(if left == [] then Resolved else Present)
      case LookingUp => Quiet(LookupFails)
      case LookingUpApps => Quiet(LookupFails)
      case Failing(left) => if left == [] then Quiet(FailedAll) else TakeFor(FailOne)
      case LeavingOut(rest) =>
        if rest == {} then Quiet(LeftOut) else
          var a :| a in rest;
          if a in s.w.seen then Quiet(AlreadySeen(a)) else TakeFor(LeaveOut(a))
      case Deciding => Quiet(Decide)
      case Checking(_) => Quiet(Check)
      case Claiming(_) => Claim
      case Reloading(_, _, _) => ReloadEnds(false, false)
      case Sweeping(all, _) => if all == map[] then Quiet(Halt) else (var a :| a in all; SweepOne(a))
      case Halted(_) => SweepStart;
    assert Enabled(s, e) || (s.outbox == [] && (s.w.pc.Halted? || (s.w.pc == Select && !s.f.wake && !s.done)));
  }

  // ---- Forget ----

  /** A step that names app in an Enqueue. */
  ghost predicate Names(s: State, e: Step, app: App) {
    e.CallStep? && ((e.k.Enqueue? && app in e.k.req.apps)
                    || (e.k.MergeApp? && e.c in s.calls && s.calls[e.c].Registered? && s.calls[e.c].app == app))
  }

  ghost predicate EndsPass(s: State, e: Step) {
    e == Quiet(Decide) && (s.w.queue == [] || s.done)
  }

  lemma DroppedStays(s: State, e: Step, app: App)
    requires Enabled(s, e) && app in s.f.dropped && !Names(s, e, app) && !EndsPass(s, e)
    ensures app in Do(s, e).f.dropped
  {
    match e
    case CallStep(c, k) => if k.MergeApp? { assert Elems([s.calls[c].app]) == {s.calls[c].app}; }
    case _ =>
  }

  lemma ForgetDrops(s: State, c: Caller, app: App)
    requires Enabled(s, CallStep(c, Forget(app))) && s.f.busy
    ensures app in Do(s, CallStep(c, Forget(app))).f.dropped
  {
  }

  lemma CheckPassesOver(s: State, app: App)
    requires Enabled(s, Quiet(Check)) && s.w.pc == Checking(app) && app in s.f.dropped
    ensures Do(s, Quiet(Check)).w.pc == Taking(false)
  {
  }

  /** A forgotten app does not get past isDropped again in its pass, unless a later Enqueue
      names it. */
  lemma {:induction false} ForgottenStaysDropped(states: seq<State>, steps: seq<Step>, i: nat, j: nat, app: App)
    requires RunFrom(INIT, states, steps) && i < j <= |steps|
    requires steps[i].CallStep? && steps[i].k == Forget(app) && states[i].f.busy
    requires forall k :: i < k < j ==> !Names(states[k], steps[k], app) && !EndsPass(states[k], steps[k])
    ensures app in states[j].f.dropped
    ensures j < |steps| && steps[j] == Quiet(Check) && states[j].w.pc == Checking(app) ==>
            states[j + 1].w.pc == Taking(false)
  {
    if j == i + 1 {
      ForgetDrops(states[i], steps[i].c, app);
    } else {
      ForgottenStaysDropped(states, steps, i, j - 1, app);
      DroppedStays(states[j - 1], steps[j - 1], app);
    }
    if j < |steps| && steps[j] == Quiet(Check) && states[j].w.pc == Checking(app) { CheckPassesOver(states[j], app); }
  }

  // ---- After the end ----

  ghost predicate LateInv(s: State) {
    s.w.pc.Sweeping? || s.w.pc.Halted? ==>
      forall ch :: ch in s.book.reg && s.w.pc.sweptAt < s.book.reg[ch].at ==>
        ch in s.book.owner && Late(s.book, ch)
  }

  ghost predicate Late(b: Ledger, ch: Chan)
    requires ch in b.owner
  {
    match b.owner[ch]
    case Waiting(_) => true
    case OfCall(_) => true
    case Answered => ch in b.sent && b.sent[ch].Deleted?
    case _ => false
  }

  lemma LateCall(s: State, c: Caller, k: CallKind)
    requires LateInv(s) && Outcomes(s) && CallEnabled(s, c, k)
    ensures LateInv(CallMove(s, c, k))
  {
    if k.EnqueueApp? || k.TakeForgotten? || k.Answer? { LateCallMoves(s, c, k); } else { CallFrame(s, c, k); }
  }

  lemma LateCallMoves(s: State, c: Caller, k: CallKind)
    requires LateInv(s) && Outcomes(s) && CallEnabled(s, c, k) && (k.EnqueueApp? || k.TakeForgotten? || k.Answer?)
    ensures LateInv(CallMove(s, c, k))
  {
    var t := CallMove(s, c, k);
    if t.w.pc.Sweeping? || t.w.pc.Halted? {
      forall ch | ch in t.book.reg && t.w.pc.sweptAt < t.book.reg[ch].at
        ensures ch in t.book.owner && Late(t.book, ch)
      {
        if ch in s.book.reg { assert Late(s.book, ch); }
      }
    }
  }

  lemma LateDeliver(s: State)
    requires LateInv(s) && Owned(s) && Enabled(s, Deliver)
    ensures LateInv(Do(s, Deliver))
  {
    var t := Do(s, Deliver);
    OwnedWhereHeld(s, Outbox, s.outbox[0]);
    assert t.w == s.w && t.book.reg == s.book.reg;
    forall ch | ch in t.book.reg && (t.w.pc.Sweeping? || t.w.pc.Halted?) && t.w.pc.sweptAt < t.book.reg[ch].at
      ensures ch in t.book.owner && Late(t.book, ch)
    {
      assert Late(s.book, ch);
    }
  }

  lemma LateSweepOne(s: State, app: App)
    requires LateInv(s) && Owned(s) && Enabled(s, SweepOne(app))
    ensures LateInv(Do(s, SweepOne(app)))
  {
    var t := Do(s, SweepOne(app));
    forall ch | ch in t.book.reg && t.w.pc.sweptAt < t.book.reg[ch].at
      ensures ch in t.book.owner && Late(t.book, ch)
    {
      assert Late(s.book, ch);
      if ch in HeldBy(s, Sweep(app)) { OwnedWhereHeld(s, Sweep(app), ch); }
    }
  }

  lemma LateQuiet(s: State, q: QuietKind)
    requires LateInv(s) && Enabled(s, Quiet(q))
    ensures LateInv(Do(s, Quiet(q)))
  {
    QuietFrame(s.w, s.f, s.done, q);
    assert Do(s, Quiet(q)).w.pc.Sweeping? || Do(s, Quiet(q)).w.pc.Halted? ==> q.Halt?;
  }

  /** The sweep has just begun: nothing was registered after it. */
  lemma LateSweepStart(s: State)
    requires Outcomes(s) && Enabled(s, SweepStart)
    ensures LateInv(Do(s, SweepStart))
  {
  }

  lemma LateStep(s: State, e: Step)
    requires LateInv(s) && Owned(s) && Outcomes(s) && Enabled(s, e)
    ensures LateInv(Do(s, e))
  {
    match e
    case CallStep(c, k) => LateCall(s, c, k);
    case Deliver => LateDeliver(s);
    case Quiet(q) => LateQuiet(s, q);
    case SweepOne(app) => LateSweepOne(s, app);
    case SweepStart => LateSweepStart(s);
    case _ =>
  }

  lemma {:induction false} LateEveryState(states: seq<State>, steps: seq<Step>, i: nat)
    requires RunFrom(INIT, states, steps) && i < |states|
    ensures LateInv(states[i])
  {
    if i > 0 {
      LateEveryState(states, steps, i - 1);
      EveryState(states, steps, i - 1);
      LateStep(states[i - 1], steps[i - 1]);
    }
  }

  /** A channel registered after the final sweep hears nothing but a Forget of its app. */
  lemma LateWaiters(s: State, ch: Chan)
    requires Reachable(s) && s.w.pc.Halted? && ch in s.book.reg && s.w.pc.sweptAt < s.book.reg[ch].at
    ensures ch in s.book.sent ==> s.book.sent[ch].Deleted?
  {
    var states, steps :| RunFrom(INIT, states, steps) && s == states[|steps|];
    LateEveryState(states, steps, |steps|);
    ReachableInv(s);
  }

  /** And so EnqueueApp's promise of an outcome does not reach past Run's return: here every
      call is over, and the channel is never answered. */
  lemma LateWaiterUnanswered()
    ensures exists s :: Reachable(s) && s.w.pc.Halted? && s.calls == map[] && 0 in s.book.reg && 0 !in s.book.sent
  {
    InitReachable();
    ReachableStep(INIT, Cancel);
    var s1 := Do(INIT, Cancel);
    ReachableStep(s1, SweepStart);
    var s2 := Do(s1, SweepStart);
    ReachableStep(s2, Quiet(Halt));
    var s3 := Do(s2, Quiet(Halt));
    LateCalls(s3);
  }

  lemma LateCalls(s: State)
    requires Reachable(s) && s.w.pc.Halted? && s.calls == map[] && s.book == Ledger(map[], map[], map[])
    ensures exists t :: Reachable(t) && t.w.pc.Halted? && t.calls == map[] && 0 in t.book.reg && 0 !in t.book.sent
  {
    var s1 := Do(s, CallStep(0, EnqueueApp("a", 0)));
    var s2 := Do(s1, CallStep(0, MergeApp));
    var s3 := Do(s2, CallStep(0, Signal));
    ReachableStep(s, CallStep(0, EnqueueApp("a", 0)));
    ReachableStep(s1, CallStep(0, MergeApp));
    ReachableStep(s2, CallStep(0, Signal));
    assert s3.calls == map[];
  }
}
