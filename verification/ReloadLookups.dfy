/** What becomes of an Enqueue for every app or for the apps of some names, which a lookup is to
    find, and of the apps it finds. */
module ReloadLookups {
  import opened Common
  import opened Order
  import opened ReloadWorkers
  import opened ReloadProtocol
  import opened ReloadTheorems
  import opened ReloadLiveness
  import opened ReloadFairness
  import opened ReloadProgress

  // ---- What is asked for ----

  /** An Enqueue adds to the pending work what it asks for and nothing else: apps; names, only
      without apps; everything, only without either. */
  lemma EnqueueAsks(s: State, c: Caller, req: Request)
    requires CallEnabled(s, c, Enqueue(req))
    ensures var was, now := s.f.pending, Do(s, CallStep(c, Enqueue(req))).f.pending;
            && (now.all <==> was.all || |req.apps| + |req.names| == 0)
            && (forall n :: n in now.names <==> n in was.names || (|req.apps| == 0 && n in req.names))
            && (forall a :: a in now.apps <==> a in was.apps || a in req.apps)
  {
  }

  /** The batch asks for these names, or for everything when there are none. */
  ghost predicate Carries(b: Batch, names: set<string>) { if names == {} then b.all else names <= b.names }

  /** A lookup on behalf of these names, or of everything. */
  ghost predicate LooksUp(s: State, e: Step, names: set<string>) {
    e.Quiet? && (e.q.LookedUp? || e.q.LookupFails?) && s.w.pc == LookingUp
    && (s.w.batch.all || (names != {} && names <= s.w.batch.names))
  }

  // ---- The lookup comes ----

  ghost predicate AtLookup(s: State, names: set<string>) { s.w.pc == LookingUp && Carries(s.w.batch, names) }

  ghost predicate Awaited(s: State, names: set<string>) {
    !s.done && (Carries(s.f.pending, names) || AtLookup(s, names))
  }

  ghost function LookupWay(s: State, names: set<string>): Wait {
    if AtLookup(s, names) then Wait(4, 2, 0, 0, 0, 0, |s.outbox|)
    else if Asleep(s) && Signallers(s.calls) != {} then Wait(4, 3, 0, 4, Least(Signallers(s.calls)), 0, |s.outbox|)
    else Wait(4, 3, 0, TakePlace(s.w.pc, s.f.wake), StageOf(s.w.pc), BatchLeft(s.w.pc), |s.outbox|)
  }

  ghost function LookupAgent(s: State, names: set<string>): Agent {
    if !AtLookup(s, names) && Asleep(s) && Signallers(s.calls) != {} then TheCaller(Least(Signallers(s.calls)))
    else TheWorker
  }

  ghost predicate LookupSettles(s: State, e: Step, names: set<string>) { e == Cancel || LooksUp(s, e, names) }

  lemma CallKeepsAwaited(s: State, c: Caller, k: CallKind, names: set<string>)
    requires Awaited(s, names) && CallEnabled(s, c, k)
    ensures Awaited(Do(s, CallStep(c, k)), names)
  {
  }

  lemma TakeStartsLookup(s: State, names: set<string>)
    requires Carries(s.f.pending, names) && Enabled(s, Quiet(Take))
    ensures AtLookup(Do(s, Quiet(Take)), names)
  {
    if names != {} { var n :| n in names; assert n in s.f.pending.names; }
  }

  /** The worker's other steps bring it nearer to its next take and leave the pending work alone. */
  lemma OnTheWay(s: State, e: Step)
    requires Queues(s.w) && !s.done && !Swept(s.w.pc)
    requires Enabled(s, e) && ByWorker(e) && e != Deliver && e != Quiet(Take)
    ensures var t := Do(s, e);
            Downhill(s.w, t.w, TakePlace(s.w.pc, s.f.wake), TakePlace(t.w.pc, t.f.wake)) && t.f.pending == s.f.pending
    ensures !Asleep(s)
  {
    match e
    case Quiet(q) => QuietOnTheWay(s, q);
    case TakeFor(k) => TakeForDown(s.w, k);
    case _ =>
  }

  lemma QuietOnTheWay(s: State, q: QuietKind)
    requires Queues(s.w) && !s.done && !Swept(s.w.pc) && Enabled(s, Quiet(q)) && q != Take
    ensures var t := Do(s, Quiet(q));
            Downhill(s.w, t.w, TakePlace(s.w.pc, s.f.wake), TakePlace(t.w.pc, t.f.wake)) && t.f.pending == s.f.pending
    ensures !Asleep(s)
  {
    var t := Do(s, Quiet(q));
    assert t.w == QuietMove(s.w, s.f, s.done, q) && t.f == QuietFields(s.w, s.f, s.done, q) && q != Halt;
    hide Do;
    hide QuietMove;
    hide Queues;
    QuietTakeDown(s.w, s.f, q);
  }

  /** A step that is not the lookup itself, of the worker at the lookup, is a delivery. */
  lemma AtLookupOnlyDelivers(s: State, e: Step, names: set<string>)
    requires AtLookup(s, names) && Enabled(s, e) && ByWorker(e) && !LooksUp(s, e, names)
    ensures e == Deliver
  {
  }

  lemma WorkerComesNearer(s: State, e: Step, names: set<string>)
    requires Awaited(s, names) && Queues(s.w) && !Swept(s.w.pc) && Enabled(s, e) && ByWorker(e) && !LooksUp(s, e, names)
    ensures Awaited(Do(s, e), names) && Nearer(LookupWay(Do(s, e), names), LookupWay(s, names))
  {
    var t := Do(s, e);
    NearerIf(LookupWay(t, names), LookupWay(s, names));
    assert t.done == s.done;
    if e == Deliver {
      DeliverFrame(s);
      hide Do;
      hide Enabled;
      hide Nearer;
    } else {
      if AtLookup(s, names) { AtLookupOnlyDelivers(s, e, names); }
      if e == Quiet(Take) { TakeStartsLookup(s, names); } else { OnTheWay(s, e); }
      hide Do;
      hide Enabled;
      hide Nearer;
    }
  }

  lemma CallComesNearer(s: State, e: Step, names: set<string>)
    requires Awaited(s, names) && Enabled(s, e) && !ByWorker(e) && e != Cancel
    requires AtLookup(s, names) || (Asleep(s) ==> Signallers(s.calls) != {})
    ensures var t := Do(s, e);
            Awaited(t, names)
            && (Nearer(LookupWay(t, names), LookupWay(s, names))
                || (LookupWay(t, names) == LookupWay(s, names) && LookupAgent(t, names) == LookupAgent(s, names)
                    && !MovedBy(e, LookupAgent(s, names))))
  {
    var t := Do(s, e);
    CallerFrame(s, e);
    CallKeepsAwaited(s, e.c, e.k, names);
    NearerIf(LookupWay(t, names), LookupWay(s, names));
    hide Enabled;
    hide Do;
    hide Carries;
    hide Signallers;
    hide Nearer;
    if Asleep(s) && Signallers(s.calls) != {} {
      LeastSignals(s);
      if !t.f.wake { LeastShrinks(Signallers(s.calls), Signallers(t.calls)); }
    }
  }

  lemma LookupSignalled(s: State, names: set<string>)
    requires Inv(s) && Awaited(s, names)
    ensures !Swept(s.w.pc) && Queues(s.w) && (AtLookup(s, names) || (Asleep(s) ==> Signallers(s.calls) != {}))
    ensures CanMove(s, LookupAgent(s, names))
  {
    if !AtLookup(s, names) && Asleep(s) {
      if names != {} { var n :| n in names; assert n in s.f.pending.names; }
      var c :| c in s.calls && s.calls[c].Signalling?;
      assert c in Signallers(s.calls);
    }
    AtRestNothingInHand(s);
  }

  ghost function Lookup(names: set<string>): Errand {
    Errand(s => Awaited(s, names), s => LookupWay(s, names), s => LookupAgent(s, names),
           (s, e) => LookupSettles(s, e, names))
  }

  lemma LookupsGoOn(names: set<string>)
    ensures GoesOn(Lookup(names))
  {
    var g := Lookup(names);
    forall s: State, e: Step | Inv(s) && g.open(s) && Enabled(s, e) ensures Advances(g, s, e) {
      assert Awaited(s, names);
      LookupSignalled(s, names);
      hide Inv;
      hide Awaited;
      hide LookupWay;
      hide LookupAgent;
      hide LooksUp;
      hide Nearer;
      hide Do;
      hide Enabled;
      if !LookupSettles(s, e, names) {
        if ByWorker(e) { WorkerComesNearer(s, e, names); } else { CallComesNearer(s, e, names); }
      }
    }
    forall s: State | Inv(s) && g.open(s) ensures CanMove(s, g.agent(s)) { LookupSignalled(s, names); }
  }

  /** In every fair run an Enqueue without apps is followed, strictly later, by a lookup on its
      behalf, for everything or for all of its names, or by the end of the context. */
  lemma EveryLookupIsMade(states: nat -> State, steps: nat -> Option<Step>, n: nat, c: Caller, req: Request)
    requires Endless(states, steps) && Fair(states, steps) && !states(n).done
    requires steps(n) == Some(CallStep(c, Enqueue(req))) && req.apps == []
    ensures exists m: nat :: m > n && steps(m).Some? && LookupSettles(states(m), steps(m).value, Elems(req.names))
  {
    NextMoment(states, steps, n);
    var s, t, names := states(n), states(n + 1), Elems(req.names);
    EnqueueAsks(s, c, req);
    assert t == Do(s, CallStep(c, Enqueue(req))) && !t.done;
    assert req.names != [] ==> req.names[0] in names;
    assert Carries(t.f.pending, names);
    hide Do;
    LookupsGoOn(names);
    hide GoesOn;
    EveryErrandIsSettled(states, steps, Lookup(names), n + 1);
    var m: nat :| m >= n + 1 && SettledAt(states, steps, Lookup(names), m);
    assert LookupSettles(states(m), steps(m).value, names);
  }

  // ---- The apps a lookup finds ----

  /** The app is on the worker's list. */
  predicate Listed(w: Worker, a: App) { a in w.out || a in w.queue || w.pc == Checking(a) || w.pc == Claiming(a) }

  /** What a lookup finds is listed, each app it returns. */
  lemma FoundAreListed(s: State, ids: seq<App>, a: App)
    requires Queues(s.w) && Enabled(s, Quiet(LookedUp(ids))) && a in ids
    ensures Listed(Do(s, Quiet(LookedUp(ids))).w, a)
  {
    AddNewKeeps(s.w.out, s.w.seen, ids);
    assert a in Elems(ids);
    var (o, k) := AddNew(s.w.out, s.w.seen, ids);
    assert a in Elems(o);
  }

  /** Its reload begins; or it is passed over, as forgotten; or the context ends. */
  predicate Unlists(s: State, e: Step, a: App) {
    || (e == Claim && s.w.pc == Claiming(a))
    || (e == Quiet(Check) && s.w.pc == Checking(a) && a in s.f.dropped)
    || e == Cancel
  }

  lemma ListedByQuiet(s: State, q: QuietKind, a: App)
    requires Listed(s.w, a) && Queues(s.w) && !s.done && Enabled(s, Quiet(q)) && !Unlists(s, Quiet(q), a)
    ensures Listed(Do(s, Quiet(q)).w, a)
  {
    match q
    case Resolved => QueuesMerged(s.w); assert a in Elems(s.w.out) || a in Elems(s.w.queue);
    case LeftOut => QueuesMerged(s.w); assert a in Elems(s.w.out) || a in Elems(s.w.queue);
    case LookedUp(ids) => AddNewKeeps(s.w.out, s.w.seen, ids);
    case Decide => if a in s.w.queue && s.w.queue[0] != a { TailHas(a, s.w.queue); }
    case _ =>
  }

  lemma ListedByStep(s: State, e: Step, a: App)
    requires Listed(s.w, a) && Queues(s.w) && !s.done && !Swept(s.w.pc) && Enabled(s, e) && !Unlists(s, e, a)
    ensures Listed(Do(s, e).w, a)
  {
    match e
    case Quiet(q) => ListedByQuiet(s, q, a);
    case _ =>
  }

  lemma ListedInHand(s: State, a: App)
    requires Listed(s.w, a)
    ensures a in InHand(s.w)
  {
    assert a in s.w.out ==> a in Elems(s.w.out);
    assert a in s.w.queue ==> a in Elems(s.w.queue);
  }

  lemma ListedBatchDown(s: State, e: Step, a: App)
    requires Queues(s.w) && Pass(s) && !s.done && Enabled(s, e) && ByWorker(e) && e != Deliver
    requires a in s.w.out && a !in s.w.queue && s.w.pc != Checking(a) && s.w.pc != Claiming(a)
    ensures var t := Do(s, e); a in t.w.queue || (ResolvingBatch(t.w.pc) && Downhill(s.w, t.w, 0, 0))
  {
    assert a in Elems(s.w.out);
    match e
    case Quiet(q) => QuietInBatch(s, q, a);
    case TakeFor(k) => TakeForDown(s.w, k);
  }

  lemma ListedDown(s: State, e: Step, a: App)
    requires Queues(s.w) && Pass(s) && !s.done && !Swept(s.w.pc) && Enabled(s, e) && ByWorker(e)
    requires Listed(s.w, a) && !Unlists(s, e, a) && Listed(Do(s, e).w, a)
    ensures Nearer(Queueing(Do(s, e), a), Queueing(s, a))
  {
    var t := Do(s, e);
    ListedInHand(s, a);
    ListedInHand(t, a);
    Levels(s, a);
    Levels(t, a);
    NearerIf(Queueing(t, a), Queueing(s, a));
    if e == Deliver {
      DeliverFrame(s);
      hide *;
    } else if s.w.pc == Checking(a) {
      CheckedGoesOn(s, e, a);
      hide *;
    } else if s.w.pc == Claiming(a) {
      assert false;
    } else if a in s.w.queue {
      if e.Quiet? { QuietInQueue(s, e.q, a); } else { OtherInQueue(s, e, a); }
      hide *;
    } else {
      ListedBatchDown(s, e, a);
      hide *;
    }
  }

  ghost function Listing(a: App): Errand {
    Errand((s: State) => !s.done && Listed(s.w, a), s => Queueing(s, a), s => QueueingAgent(s, a),
           (s, e) => Unlists(s, e, a))
  }

  lemma ListedAdvances(s: State, e: Step, a: App)
    requires Inv(s) && !s.done && Listed(s.w, a) && Enabled(s, e) && !Unlists(s, e, a)
    ensures var t := Do(s, e);
            !t.done && Listed(t.w, a)
            && (Nearer(Queueing(t, a), Queueing(s, a))
                || (Queueing(t, a) == Queueing(s, a) && QueueingAgent(t, a) == QueueingAgent(s, a)
                    && !MovedBy(e, QueueingAgent(s, a))))
  {
    assert Queues(s.w) && Pass(s) && !Swept(s.w.pc);
    assert !Do(s, e).done;
    ListedByStep(s, e, a);
    ListedInHand(s, a);
    hide *;
    if ByWorker(e) { ListedDown(s, e, a); } else { QueueingCall(s, e, a); }
  }

  lemma ListingsGoOn(a: App)
    ensures GoesOn(Listing(a))
  {
    var g := Listing(a);
    forall s: State, e: Step | Inv(s) && g.open(s) && Enabled(s, e) ensures Advances(g, s, e) {
      hide Inv;
      hide Queueing;
      hide QueueingAgent;
      hide Unlists;
      hide Nearer;
      hide Do;
      hide Enabled;
      hide Listed;
      if !Unlists(s, e, a) { ListedAdvances(s, e, a); }
    }
    forall s: State | Inv(s) && g.open(s) ensures CanMove(s, g.agent(s)) {
      ListedInHand(s, a);
      AtRestNothingInHand(s);
    }
  }

  /** In every fair run each app a lookup returns is later reloaded, or passed over because it was
      forgotten, or the context ends. */
  lemma EveryFoundAppIsReloaded(states: nat -> State, steps: nat -> Option<Step>, n: nat, ids: seq<App>, a: App)
    requires Endless(states, steps) && Fair(states, steps) && !states(n).done
    requires steps(n) == Some(Quiet(LookedUp(ids))) && a in ids
    ensures exists m: nat :: m > n && steps(m).Some? && Unlists(states(m), steps(m).value, a)
  {
    NextMoment(states, steps, n);
    Along(states, steps, n);
    FoundAreListed(states(n), ids, a);
    assert !states(n + 1).done;
    hide Listed;
    ListingsGoOn(a);
    hide GoesOn;
    EveryErrandIsSettled(states, steps, Listing(a), n + 1);
    var m: nat :| m >= n + 1 && SettledAt(states, steps, Listing(a), m);
    assert Unlists(states(m), steps(m).value, a);
  }

  // ---- Which way a batch goes ----

  /** A batch that asks only for apps someone waits for skips the lookup; any other is looked up,
      for everything or its names first, else for its apps. */
  lemma TakenGoes(s: State)
    requires Enabled(s, Quiet(Take)) && !s.f.pending.Empty()
    ensures var t, b := Do(s, Quiet(Take)), s.f.pending;
            && t.w.batch == b && t.f.pending.Empty()
            && (t.w.pc.Resolving? <==> !b.all && b.names == {} && forall a :: a in b.apps ==> s.f.WaitersOf(a) != [])
            && (t.w.pc.Resolving? ==> Elems(t.w.pc.left) == b.apps)
            && (t.w.pc == LookingUp <==> b.all || b.names != {})
            && (t.w.pc == LookingUpApps <==>
                !b.all && b.names == {} && exists a :: a in b.apps && s.f.WaitersOf(a) == [])
  {
  }

  /** After the lookup for everything or the names comes the one for the apps, if any are asked for. */
  lemma AppsAreLookedUpToo(s: State, q: QuietKind)
    requires Enabled(s, Quiet(q)) && s.w.pc == LookingUp && (q.LookedUp? || q.LookupFails?)
    ensures Do(s, Quiet(q)).w.pc == LookingUpApps <==> s.w.batch.apps != {}
  {
  }

  /** The lookup for the apps ends the batch: when it fails each of them is answered so, else those
      left out are; the apps of a waited batch are asked for one by one. */
  lemma LookupEnds(s: State, q: QuietKind)
    requires Enabled(s, Quiet(q)) && s.w.pc == LookingUpApps && (q.LookedUp? || q.LookupFails?)
    ensures var t := Do(s, Quiet(q));
            && (q.LookupFails? ==> t.w.pc.Failing? && Elems(t.w.pc.left) == s.w.batch.apps)
            && (q.LookedUp? ==> t.w.pc == LeavingOut(s.w.batch.apps) && t.w.seen == s.w.seen + Elems(q.ids))
  {
  }

  /** Each failed app takes its turn, and then counts as seen; only the others can be left out. */
  lemma FailedAreNotLeftOut(s: State, k: TakeKind)
    requires Enabled(s, TakeFor(k))
    ensures k == FailOne ==>
              s.w.pc.Failing? && s.w.pc.left != [] && TakeApp(s.w, k) == s.w.pc.left[0]
              && Do(s, TakeFor(k)).w.pc == Failing(s.w.pc.left[1..]) && s.w.pc.left[0] in Do(s, TakeFor(k)).w.seen
    ensures k.LeaveOut? ==> s.w.pc.LeavingOut? && k.app in s.w.pc.rest && k.app !in s.w.seen
    ensures k == Gone ==> s.w.pc.Resolving? && s.w.pc.left != [] && TakeApp(s.w, k) == s.w.pc.left[0]
  {
  }

  // ---- Forget ----

  lemma PendingFrom(s: State, e: Step, a: App)
    requires Enabled(s, e) && !Names(s, e, a) && a !in s.f.pending.apps
    ensures a !in Do(s, e).f.pending.apps
  {
    match e
    case CallStep(c, k) => if k.MergeApp? { assert Elems([s.calls[c].app]) == {s.calls[c].app}; }
    case _ =>
  }

  /** A forgotten app is withdrawn: it is not pending again until an Enqueue names it. */
  lemma {:induction false} ForgottenIsWithdrawn(states: seq<State>, steps: seq<Step>, i: nat, j: nat, a: App)
    requires RunFrom(INIT, states, steps) && i < j <= |steps|
    requires steps[i].CallStep? && steps[i].k == Forget(a)
    requires forall k :: i < k < j ==> !Names(states[k], steps[k], a)
    ensures a !in states[j].f.pending.apps
  {
    if j > i + 1 {
      ForgottenIsWithdrawn(states, steps, i, j - 1, a);
      PendingFrom(states[j - 1], steps[j - 1], a);
    } else {
      assert Enabled(states[i], steps[i]) && states[j] == Do(states[i], steps[i]);
    }
  }
}
