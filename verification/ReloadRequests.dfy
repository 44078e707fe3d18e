/** What becomes of an app an Enqueue names, whether or not anyone waits for it. */
module ReloadRequests {
  import opened Common
  import opened Order
  import opened ReloadWorkers
  import opened ReloadProtocol
  import opened ReloadTheorems
  import opened ReloadLiveness
  import opened ReloadFairness
  import opened ReloadProgress

  /** The app is pending or in the worker's hands, and no Forget has withdrawn it. */
  ghost predicate Tended(s: State, a: App) {
    !s.done && a !in s.f.dropped && (a in s.f.pending.apps || a in InHand(s.w))
  }

  /** What settles it: its reload begins, its lookup fails or leaves it out, it is forgotten, or
      the context ends. */
  predicate Settles(s: State, e: Step, a: App)
    requires Enabled(s, e)
  {
    Takes(s, e, a) || e == Cancel || (e.CallStep? && e.k == Forget(a))
  }

  lemma AskedIsTended(s: State, e: Step, a: App)
    requires Enabled(s, e) && Names(s, e, a) && !s.done
    ensures Tended(Do(s, e), a)
  {
    if e.k.MergeApp? { assert a in Elems([a]); }
  }

  lemma TendedCall(s: State, c: Caller, k: CallKind, a: App)
    requires Tended(s, a) && CallEnabled(s, c, k) && k != Forget(a)
    ensures Tended(Do(s, CallStep(c, k)), a)
  {
  }

  lemma TendedQuiet(s: State, q: QuietKind, a: App)
    requires Tended(s, a) && Queues(s.w) && Enabled(s, Quiet(q))
    ensures Tended(Do(s, Quiet(q)), a)
  {
    var t := Do(s, Quiet(q));
    assert t.w == QuietMove(s.w, s.f, s.done, q) && t.f == QuietFields(s.w, s.f, s.done, q) && !t.done;
    InHandQuiet(s.w, s.f, s.done, q);
    hide Do;
    hide QuietMove;
    hide InHand;
    hide Queues;
  }

  lemma TendedWorker(s: State, e: Step, a: App)
    requires Tended(s, a) && Queues(s.w) && !Swept(s.w.pc) && Enabled(s, e) && ByWorker(e) && !Takes(s, e, a)
    ensures Tended(Do(s, e), a)
  {
    match e
    case Quiet(q) => TendedQuiet(s, q, a);
    case TakeFor(k) => InHandTake(s.w, k);
    case _ =>
  }

  lemma SweepingMeansDone(s: State)
    requires Inv(s)
    ensures Swept(s.w.pc) ==> s.done
  {
  }

  lemma StepTends(s: State, e: Step, a: App)
    requires Inv(s) && Tended(s, a) && Enabled(s, e) && !Settles(s, e, a)
    ensures Tended(Do(s, e), a)
    ensures Nearer(Queueing(Do(s, e), a), Queueing(s, a))
            || (Queueing(Do(s, e), a) == Queueing(s, a) && QueueingAgent(Do(s, e), a) == QueueingAgent(s, a)
                && !MovedBy(e, QueueingAgent(s, a)))
  {
    SweepingMeansDone(s);
    SignallerComes(s, a);
    assert Queues(s.w) && Pass(s);
    assert !s.done && a !in s.f.dropped && (a in s.f.pending.apps || a in InHand(s.w));
    hide Inv;
    if ByWorker(e) {
      TendedWorker(s, e, a);
      hide *;
      QueueingDown(s, e, a);
    } else {
      if e.CallStep? { TendedCall(s, e.c, e.k, a); }
      hide *;
      QueueingCall(s, e, a);
    }
  }

  /** A sleeping worker with work pending has a call about to wake it. */
  lemma SignallerComes(s: State, a: App)
    requires Inv(s) && Tended(s, a)
    ensures a in InHand(s.w) || (Asleep(s) ==> Signallers(s.calls) != {})
  {
    if a !in InHand(s.w) && Asleep(s) {
      var c :| c in s.calls && s.calls[c].Signalling?;
      assert c in Signallers(s.calls);
    }
  }

  lemma TendedAgentCanMove(s: State, a: App)
    requires Inv(s) && Tended(s, a)
    ensures CanMove(s, QueueingAgent(s, a))
  {
    SweepingMeansDone(s);
    SignallerComes(s, a);
    AtRestNothingInHand(s);
  }

  ghost function Request(a: App): Errand {
    Errand(s => Tended(s, a), s => Queueing(s, a), s => QueueingAgent(s, a),
           (s, e) => Enabled(s, e) && Settles(s, e, a))
  }

  lemma RequestsGoOn(a: App)
    ensures GoesOn(Request(a))
  {
    var g := Request(a);
    forall s: State, e: Step | Inv(s) && g.open(s) && Enabled(s, e) ensures Advances(g, s, e) {
      assert Tended(s, a);
      hide Inv;
      if !Settles(s, e, a) { StepTends(s, e, a); }
      hide Tended;
      hide Queueing;
      hide QueueingAgent;
      hide Settles;
      hide Nearer;
      hide Do;
      hide Enabled;
    }
    forall s: State | Inv(s) && g.open(s) ensures CanMove(s, g.agent(s)) { TendedAgentCanMove(s, a); }
  }

  /** At moment m of the run the app is settled. */
  ghost predicate RequestSettled(states: nat -> State, steps: nat -> Option<Step>, a: App, m: nat) {
    steps(m).Some? && Enabled(states(m), steps(m).value) && Settles(states(m), steps(m).value, a)
  }

  /** In every fair run, an app an Enqueue names is later reloaded, or its lookup later fails or
      leaves it out, or it is later forgotten, or the context ends: also when it is being
      reloaded, or was looked up, just then. */
  lemma EveryRequestIsSettled(states: nat -> State, steps: nat -> Option<Step>, n: nat, a: App)
    requires Endless(states, steps) && Fair(states, steps) && !states(n).done
    requires steps(n).Some? && Enabled(states(n), steps(n).value) && Names(states(n), steps(n).value, a)
    ensures exists m: nat :: m > n && RequestSettled(states, steps, a, m)
  {
    NextMoment(states, steps, n);
    AskedIsTended(states(n), steps(n).value, a);
    RequestsGoOn(a);
    hide Tended;
    hide GoesOn;
    EveryErrandIsSettled(states, steps, Request(a), n + 1);
    var m: nat :| m >= n + 1 && SettledAt(states, steps, Request(a), m);
    assert RequestSettled(states, steps, a, m);
  }
}
