/** What a waiter hears, told from the step that decided it. */
module ReloadAnswers {
  import opened Common
  import opened Order
  import opened ReloadWorkers
  import opened ReloadProtocol
  import opened ReloadTheorems
  import opened ReloadLiveness
  import opened ReloadFairness

  /** The worker is about to send o on ch, or o was sent. */
  ghost predicate Owes(s: State, ch: Chan, o: Outcome) {
    ch in s.book.reg
    && if ch in s.book.sent then s.book.sent[ch] == o else ch in s.outbox && s.reply == o
  }

  lemma OwesCall(s: State, c: Caller, k: CallKind, ch: Chan, o: Outcome)
    requires Owned(s) && CallEnabled(s, c, k) && Owes(s, ch, o)
    ensures Owes(Do(s, CallStep(c, k)), ch, o)
  {
    if ch in s.book.sent {
      SentStands(s, CallStep(c, k), ch);
    } else if k == Answer {
      var first := s.calls[c].chans[0];
      assert first in HeldBy(s, OfCall(c));
      OwnedWhereHeld(s, OfCall(c), first);
      assert ch in HeldBy(s, Outbox);
      OwnedWhereHeld(s, Outbox, ch);
    }
    hide Owned;
  }

  lemma OwesDeliver(s: State, ch: Chan, o: Outcome)
    requires Owned(s) && Enabled(s, Deliver) && Owes(s, ch, o)
    ensures Owes(Do(s, Deliver), ch, o)
  {
    if ch in s.book.sent { SentStands(s, Deliver, ch); } else if ch != s.outbox[0] { TailIndex(ch, s.outbox); }
    hide Owned;
  }

  lemma OwesStep(s: State, e: Step, ch: Chan, o: Outcome)
    requires Owned(s) && Enabled(s, e) && Owes(s, ch, o)
    ensures Owes(Do(s, e), ch, o)
  {
    match e
    case CallStep(c, k) => OwesCall(s, c, k, ch, o);
    case Deliver => OwesDeliver(s, ch, o);
    case Cancel =>
    case _ =>
      if ch in s.book.sent { SentStands(s, e, ch); }
      assert Do(s, e).book.reg == s.book.reg;
      hide Owned;
  }

  lemma {:induction false} OwedIsPaid(states: seq<State>, steps: seq<Step>, i: nat, j: nat, ch: Chan, o: Outcome)
    requires RunFrom(INIT, states, steps) && i <= j < |states| && Owes(states[i], ch, o)
    ensures Owes(states[j], ch, o)
  {
    hide Owes;
    hide Enabled;
    hide Move;
    if i < j {
      OwedIsPaid(states, steps, i, j - 1, ch, o);
      EveryState(states, steps, j - 1);
      OwesStep(states[j - 1], steps[j - 1], ch, o);
    }
  }

  /** r tells a reload's end: the context had ended by then; or ReloadSharedVars returned an
      error; or it skipped the app; or none of these. */
  ghost predicate Tells(r: Result, done: bool, skipped: bool, failed: bool) {
    && (r == Cancelled <==> done)
    && (r == Failed <==> !done && failed)
    && (r == NotRunning <==> !done && !failed && skipped)
    && (r == Applied <==> !done && !failed && !skipped)
  }

  lemma ReloadOwes(s: State, skipped: bool, failed: bool, ch: Chan) returns (r: Result)
    requires Owned(s) && Enabled(s, ReloadEnds(skipped, failed)) && ch in s.w.pc.waiting
    ensures Tells(r, s.done, skipped, failed)
    ensures Owes(Do(s, ReloadEnds(skipped, failed)), ch, Reloaded(s.w.pc.app, s.w.pc.started, r))
  {
    r := ResultOf(s.done, skipped, failed);
    assert ch in HeldBy(s, Reload);
    OwnedWhereHeld(s, Reload, ch);
    HeldWhereOwned(s, ch);
  }

  /** Whoever waited for a reload hears exactly how it ended. */
  lemma ReloadAnswered(states: seq<State>, steps: seq<Step>, i: nat, j: nat, ch: Chan, skipped: bool, failed: bool)
    requires RunFrom(INIT, states, steps) && i < j < |states| && steps[i] == ReloadEnds(skipped, failed)
    requires states[i].w.pc.Reloading? && ch in states[i].w.pc.waiting && ch in states[j].book.sent
    ensures var o := states[j].book.sent[ch];
            && o.Reloaded? && o.app == states[i].w.pc.app && o.started == states[i].w.pc.started
            && Tells(o.result, states[i].done, skipped, failed)
  {
    EveryState(states, steps, i);
    assert Enabled(states[i], steps[i]) && states[i + 1] == Do(states[i], steps[i]);
    var r := ReloadOwes(states[i], skipped, failed, ch);
    OwedIsPaid(states, steps, i + 1, j, ch, Reloaded(states[i].w.pc.app, states[i].w.pc.started, r));
  }

  lemma TakeOwes(s: State, k: TakeKind, ch: Chan)
    requires Owned(s) && Enabled(s, TakeFor(k)) && ch in s.f.WaitersOf(TakeApp(s.w, k))
    ensures var a := TakeApp(s.w, k);
            Owes(Do(s, TakeFor(k)), ch, if k == FailOne then LookupFailed(a) else Skipped(a))
  {
    var from := Waiting(TakeApp(s.w, k));
    assert ch in HeldBy(s, from);
    OwnedWhereHeld(s, from, ch);
    HeldWhereOwned(s, ch);
  }

  /** Who waits for an app that is gone or left out by its lookup hears it was skipped, who waits
      for one whose lookup failed hears that. */
  lemma TakeAnswered(states: seq<State>, steps: seq<Step>, i: nat, j: nat, ch: Chan, k: TakeKind)
    requires RunFrom(INIT, states, steps) && i < j < |states| && steps[i] == TakeFor(k) && TakeEnabled(states[i].w, k)
    requires ch in states[i].f.WaitersOf(TakeApp(states[i].w, k)) && ch in states[j].book.sent
    ensures var a := TakeApp(states[i].w, k);
            && (states[j].book.sent[ch] == LookupFailed(a) <==> k == FailOne)
            && (states[j].book.sent[ch] == Skipped(a) <==> k != FailOne)
  {
    EveryState(states, steps, i);
    assert Enabled(states[i], steps[i]) && states[i + 1] == Do(states[i], steps[i]);
    TakeOwes(states[i], k, ch);
    var a := TakeApp(states[i].w, k);
    OwedIsPaid(states, steps, i + 1, j, ch, if k == FailOne then LookupFailed(a) else Skipped(a));
  }

  lemma SweepOwes(s: State, app: App, ch: Chan)
    requires Owned(s) && Enabled(s, SweepOne(app)) && ch in s.w.pc.all[app]
    ensures Owes(Do(s, SweepOne(app)), ch, Stopped)
  {
    assert ch in HeldBy(s, Sweep(app));
    OwnedWhereHeld(s, Sweep(app), ch);
    HeldWhereOwned(s, ch);
  }

  /** Who is left to the final sweep hears that the worker stopped. */
  lemma SweepAnswered(states: seq<State>, steps: seq<Step>, i: nat, j: nat, ch: Chan, app: App)
    requires RunFrom(INIT, states, steps) && i < j < |states| && steps[i] == SweepOne(app)
    requires states[i].w.pc.Sweeping? && app in states[i].w.pc.all && ch in states[i].w.pc.all[app]
    requires ch in states[j].book.sent
    ensures states[j].book.sent[ch] == Stopped
  {
    EveryState(states, steps, i);
    assert Enabled(states[i], steps[i]) && states[i + 1] == Do(states[i], steps[i]);
    SweepOwes(states[i], app, ch);
    OwedIsPaid(states, steps, i + 1, j, ch, Stopped);
  }

  /** Who a Forget takes over hears that the app was deleted. */
  lemma ForgetAnswered(s: State, c: Caller)
    requires Owned(s) && CallEnabled(s, c, Answer)
    ensures var t, a := Do(s, CallStep(c, Answer)), s.calls[c];
            a.chans[0] in t.book.sent && t.book.sent[a.chans[0]] == Deleted(a.app)
  {
  }

  // ---- In fair runs ----

  lemma {:induction false} OwesOn(states: nat -> State, steps: nat -> Option<Step>, n: nat, m: nat, ch: Chan,
                                  o: Outcome)
    requires Endless(states, steps) && n <= m && Owes(states(n), ch, o)
    ensures Owes(states(m), ch, o)
  {
    hide *;
    if n < m {
      OwesOn(states, steps, n, m - 1, ch, o);
      NextMoment(states, steps, m - 1);
      Along(states, steps, m - 1);
      OwesFollows(states(m - 1), steps(m - 1), states(m), ch, o);
    }
  }

  lemma OwesFollows(s: State, e: Option<Step>, t: State, ch: Chan, o: Outcome)
    requires Inv(s) && Follows(s, e, t) && Owes(s, ch, o)
    ensures Owes(t, ch, o)
  {
    if e.Some? { OwesStep(s, e.value, ch, o); }
    hide Inv;
    hide Owes;
  }

  /** What is owed is paid, in every fair run. */
  lemma PaidAtLast(states: nat -> State, steps: nat -> Option<Step>, n: nat, ch: Chan, o: Outcome)
    requires Endless(states, steps) && Fair(states, steps) && Owes(states(n), ch, o) && !Swept(states(n).w.pc)
    ensures exists m: nat :: ch in states(m).book.sent && states(m).book.sent[ch] == o
  {
    Along(states, steps, n);
    if ch !in states(n).book.sent {
      assert Unanswered(states(n), ch);
      hide Unanswered;
      hide Inv;
      hide OwnChannels;
      var m := Comes(states, steps, ch, n, WaitOf(states(n), ch));
      OwesOn(states, steps, n, m, ch, o);
    }
  }

  /** So in every fair run whoever waits when a reload ends is told, and told how it ended. */
  lemma EveryReloadIsTold(states: nat -> State, steps: nat -> Option<Step>, i: nat, ch: Chan, skipped: bool,
                          failed: bool)
    requires Endless(states, steps) && Fair(states, steps) && steps(i) == Some(ReloadEnds(skipped, failed))
    requires states(i).w.pc.Reloading? && ch in states(i).w.pc.waiting
    ensures exists m: nat, r: Result ::
              Tells(r, states(i).done, skipped, failed) && ch in states(m).book.sent
              && states(m).book.sent[ch] == Reloaded(states(i).w.pc.app, states(i).w.pc.started, r)
  {
    Along(states, steps, i);
    NextMoment(states, steps, i);
    var s := states(i);
    assert Owned(s) && Do(s, steps(i).value) == states(i + 1) && Enabled(s, ReloadEnds(skipped, failed));
    hide Inv;
    hide Owned;
    var r := ReloadOwes(s, skipped, failed, ch);
    assert !Swept(states(i + 1).w.pc);
    var o := Reloaded(s.w.pc.app, s.w.pc.started, r);
    PaidAtLast(states, steps, i + 1, ch, o);
    var m: nat :| ch in states(m).book.sent && states(m).book.sent[ch] == o;
  }
}
