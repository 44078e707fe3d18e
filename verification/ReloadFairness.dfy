/** Every waiter is answered, in runs where calls go on for ever. Only fairness is asked: the
    worker and every call in progress go on sooner or later, outside answers included, and Run's
    select does not pass over the end of the context for ever. */
module ReloadFairness {
  import opened Common
  import opened Order
  import opened ReloadWorkers
  import opened ReloadProtocol
  import opened ReloadTheorems
  import opened ReloadLiveness

  // ---- What one waiter waits for ----

  /** How far a waiter is from its answer, the weightiest first. */
  datatype Wait = Wait(phase: nat, level: nat, pos: nat, place: nat, stage: nat, left: nat, outbox: nat)

  predicate Nearer(a: Wait, b: Wait) {
    a.phase < b.phase || (a.phase == b.phase &&
    (a.level < b.level || (a.level == b.level &&
    (a.pos < b.pos || (a.pos == b.pos &&
    (a.place < b.place || (a.place == b.place &&
    (a.stage < b.stage || (a.stage == b.stage &&
    (a.left < b.left || (a.left == b.left && a.outbox < b.outbox)))))))))))
  }

  /** Who must move next for the waiter. */
  datatype Agent = TheWorker | TheCaller(c: Caller)

  function IndexIn<T(==)>(x: T, s: seq<T>): nat { if s == [] || s[0] == x then 0 else 1 + IndexIn(x, s[1..]) }

  lemma {:induction false} IndexFound<T>(x: T, s: seq<T>)
    requires x in s
    ensures IndexIn(x, s) < |s| && s[IndexIn(x, s)] == x
  {
    if s[0] != x { IndexFound(x, s[1..]); }
  }

  lemma {:induction false} IndexOfPrefix<T>(x: T, s: seq<T>, t: seq<T>)
    requires x in s && s <= t
    ensures IndexIn(x, t) == IndexIn(x, s)
  {
    if s[0] != x { IndexOfPrefix(x, s[1..], t[1..]); }
  }

  ghost function Least(ids: set<nat>): (n: nat)
    requires ids != {}
    ensures n in ids && forall m :: m in ids ==> n <= m
  {
    var x :| x in ids;
    if ids == {x} then x else
      var rest := Least(ids - {x});
      assert forall m :: m in ids ==> m == x || m in ids - {x};
      if x < rest then x else rest
  }

  ghost function Forgetters(calls: map<Caller, Call>, a: App): set<Caller> {
    set c | c in calls && calls[c] == Forgetting(a)
  }

  ghost function Registrants(calls: map<Caller, Call>, a: App, ch: Chan): set<Caller> {
    set c | c in calls && calls[c] == Registered(a, ch)
  }

  ghost function Signallers(calls: map<Caller, Call>): set<Caller> {
    set c | c in calls && calls[c].Signalling?
  }

  function BatchLeft(pc: Pc): nat {
    match pc
    case Failing(left) => |left|
    case Resolving(left) => |left|
    case LeavingOut(rest) => |rest|
    case _ => 0
  }

  /** The way to the next pop of the queue. */
  function PopPlace(pc: Pc): nat {
    match pc
    case Checking(_) => 6
    case Claiming(_) => 5
    case Reloading(_, _, _) => 4
    case Taking(_) => 3
    case Deciding => 1
    case _ => 2
  }

  /** The way to the next take of the pending work. */
  function TakePlace(pc: Pc, wake: bool): nat {
    match pc
    case Deciding => 8
    case Checking(_) => 7
    case Claiming(_) => 6
    case Reloading(_, _, _) => 5
    case Select => if wake then 3 else 4
    case Woken => 2
    case Taking(_) => 1
    case _ => 9
  }

  /** The way back to Run's select once the context has ended. */
  function SelectPlace(pc: Pc): nat {
    match pc
    case Checking(_) => 7
    case Claiming(_) => 6
    case Reloading(_, _, _) => 5
    case Woken => 4
    case Taking(_) => 3
    case Deciding => 1
    case Select => 0
    case _ => 2
  }

  /** No call covers the waiter and the context goes on: app a is pending or in hand. */
  ghost function Queueing(s: State, a: App): Wait {
    var w := s.w;
    var ob := |s.outbox|;
    if w.pc == Checking(a) then Wait(4, 0, 0, 1, 0, 0, ob)
    else if w.pc == Claiming(a) then Wait(4, 0, 0, 0, 0, 0, ob)
    else if a in w.queue then Wait(4, 1, IndexIn(a, w.queue), PopPlace(w.pc), StageOf(w.pc), BatchLeft(w.pc), ob)
    else if a in InHand(w) then Wait(4, 2, 0, 0, StageOf(w.pc), BatchLeft(w.pc), ob)
    else if Asleep(s) && Signallers(s.calls) != {} then Wait(4, 3, 0, 4, Least(Signallers(s.calls)), 0, ob)
    else Wait(4, 3, 0, TakePlace(w.pc, s.f.wake), StageOf(w.pc), BatchLeft(w.pc), ob)
  }

  predicate Asleep(s: State) { s.w.pc == Select && !s.f.wake }

  ghost function WaitOf(s: State, ch: Chan): Wait {
    if ch !in s.book.owner then Wait(9, 0, 0, 0, 0, 0, 0) else
    match s.book.owner[ch]
    case Answered => Wait(0, 0, 0, 0, 0, 0, 0)
    case OfCall(c) => Wait(0, IndexIn(ch, HeldByCall(s.calls, c)), 0, 0, 0, 0, 0)
    case Outbox => Wait(0, IndexIn(ch, s.outbox), 0, 0, 0, 0, 0)
    case Reload => Wait(1, 0, 0, 0, 0, 0, |s.outbox|)
    case Sweep(_) => Wait(1, if s.w.pc.Sweeping? then |s.w.pc.all.Keys| else 0, 0, 0, 0, 0, |s.outbox|)
    case Waiting(a) =>
      if Forgetters(s.calls, a) != {} then Wait(2, Least(Forgetters(s.calls, a)), 0, 0, 0, 0, 0)
      else if s.done then Wait(3, 0, 0, SelectPlace(s.w.pc), StageOf(s.w.pc), BatchLeft(s.w.pc), |s.outbox|)
      else if Registrants(s.calls, a, ch) != {} then Wait(5, Least(Registrants(s.calls, a, ch)), 0, 0, 0, 0, 0)
      else Queueing(s, a)
  }

  ghost function AgentOf(s: State, ch: Chan): Agent {
    if ch !in s.book.owner then TheWorker else
    match s.book.owner[ch]
    case OfCall(c) => TheCaller(c)
    case Waiting(a) =>
      if Forgetters(s.calls, a) != {} then TheCaller(Least(Forgetters(s.calls, a)))
      else if !s.done && Registrants(s.calls, a, ch) != {} then TheCaller(Least(Registrants(s.calls, a, ch)))
      else if !s.done && a !in InHand(s.w) && Asleep(s) && Signallers(s.calls) != {}
      then TheCaller(Least(Signallers(s.calls)))
      else TheWorker
    case _ => TheWorker
  }

  predicate MovedBy(e: Step, a: Agent) {
    match a
    case TheWorker => ByWorker(e)
    case TheCaller(c) => e.CallStep? && e.c == c
  }

  // ---- The invariant the waiters need besides ----

  /** An EnqueueApp in progress has registered its own channel, and no other call has it. */
  ghost predicate OwnChannels(s: State) {
    && (forall c :: c in s.calls && s.calls[c].Registered? ==> s.calls[c].ch in s.book.reg)
    && (forall c, d :: c in s.calls && d in s.calls && s.calls[c].Registered? && s.calls[d].Registered? ==>
          s.calls[c].ch == s.calls[d].ch ==> c == d)
  }

  lemma OwnChannelsStep(s: State, e: Step)
    requires OwnChannels(s) && Enabled(s, e)
    ensures OwnChannels(Do(s, e))
  {
  }

  /** ch was registered before the final sweep, if that has begun. */
  ghost predicate Early(s: State, ch: Chan) {
    ch in s.book.reg && (Swept(s.w.pc) ==> s.book.reg[ch].at <= SweptAt(s.w.pc))
  }

  /** A waiter that has not been answered yet, in a state a run can reach. */
  ghost predicate Unanswered(s: State, ch: Chan) {
    Inv(s) && OwnChannels(s) && Early(s, ch) && ch !in s.book.sent
  }

  // ---- Where a channel goes ----

  ghost function NextOwner(s: State, e: Step, ch: Chan): Owner
    requires Enabled(s, e) && ch in s.book.owner
  {
    var o := s.book.owner[ch];
    match e
    case CallStep(c, k) =>
      if k.TakeForgotten? && o == Waiting(s.calls[c].app) then OfCall(c)
      else if k.Answer? && ch == s.calls[c].chans[0] then Answered
      else o
    case Deliver => if ch == s.outbox[0] then Answered else o
    case TakeFor(k) => if o == Waiting(TakeApp(s.w, k)) then Outbox else o
    case Claim => if o == Waiting(s.w.pc.app) then Reload else o
    case ReloadEnds(_, _) => if o == Reload then Outbox else o
    case SweepStart => if o.Waiting? then Sweep(o.app) else o
    case SweepOne(app) => if o == Sweep(app) then Outbox else o
    case _ => o
  }

  /** All the channels at one place given to another owner. */
  lemma GivenAway(s: State, ch: Chan, from: Owner, to: Owner)
    requires Owned(s) && ch in s.book.reg && ch !in s.book.sent
    ensures ch in s.book.owner
    ensures s.book.Give(HeldBy(s, from), to).owner[ch] == if s.book.owner[ch] == from then to else s.book.owner[ch]
  {
    HeldWhereOwned(s, ch);
    if ch in HeldBy(s, from) { OwnedWhereHeld(s, from, ch); }
  }

  lemma OwnerAfterMove(s: State, e: Step, ch: Chan)
    requires Owned(s) && Enabled(s, e) && ch in s.book.reg && ch !in s.book.sent
    requires e.TakeFor? || e.Claim? || e.ReloadEnds? || e.SweepOne?
    ensures var t := Do(s, e);
            ch in s.book.owner && t.book.reg == s.book.reg
            && ch in t.book.owner && t.book.owner[ch] == NextOwner(s, e, ch)
  {
    hide Owned;
    match e
    case TakeFor(k) => GivenAway(s, ch, Waiting(TakeApp(s.w, k)), Outbox);
    case Claim => GivenAway(s, ch, Waiting(s.w.pc.app), Reload);
    case ReloadEnds(_, _) => GivenAway(s, ch, Reload, Outbox);
    case SweepOne(app) => GivenAway(s, ch, Sweep(app), Outbox);
  }

  lemma OwnerAfter(s: State, e: Step, ch: Chan)
    requires Owned(s) && Enabled(s, e) && ch in s.book.reg && ch !in s.book.sent
    ensures var t := Do(s, e);
            ch in s.book.owner && ch in t.book.reg && t.book.reg[ch] == s.book.reg[ch]
            && ch in t.book.owner && t.book.owner[ch] == NextOwner(s, e, ch)
    ensures NextOwner(s, e, ch) == Answered ==> ch in Do(s, e).book.sent
  {
    HeldWhereOwned(s, ch);
    hide Owned;
    match e
    case CallStep(c, k) => OwnerAfterCall(s, c, k, ch);
    case TakeFor(_) => OwnerAfterMove(s, e, ch);
    case Claim => OwnerAfterMove(s, e, ch);
    case ReloadEnds(_, _) => OwnerAfterMove(s, e, ch);
    case SweepOne(_) => OwnerAfterMove(s, e, ch);
    case _ =>
  }

  lemma OwnerAfterCall(s: State, c: Caller, k: CallKind, ch: Chan)
    requires Owned(s) && CallEnabled(s, c, k) && ch in s.book.reg && ch !in s.book.sent
    ensures var t := CallMove(s, c, k);
            ch in s.book.owner && ch in t.book.reg && t.book.reg[ch] == s.book.reg[ch]
            && ch in t.book.owner && t.book.owner[ch] == NextOwner(s, CallStep(c, k), ch)
    ensures NextOwner(s, CallStep(c, k), ch) == Answered ==> ch in CallMove(s, c, k).book.sent
  {
    HeldWhereOwned(s, ch);
    if k.TakeForgotten? && ch in HeldBy(s, Waiting(s.calls[c].app)) { OwnedWhereHeld(s, Waiting(s.calls[c].app), ch); }
  }

  // ---- Every step helps, or leaves the next one to the same agent ----

  ghost predicate Helps(s: State, e: Step, ch: Chan)
    requires Enabled(s, e)
  {
    var t := Do(s, e);
    ch in t.book.sent || Nearer(WaitOf(t, ch), WaitOf(s, ch))
    || (WaitOf(t, ch) == WaitOf(s, ch) && AgentOf(t, ch) == AgentOf(s, ch) && !MovedBy(e, AgentOf(s, ch)))
  }

  lemma TailIndex(ch: Chan, chans: seq<Chan>)
    requires chans != [] && ch in chans && ch != chans[0]
    ensures IndexIn(ch, chans) == 1 + IndexIn(ch, chans[1..]) && ch in chans[1..]
  {
    IndexFound(ch, chans);
    var i := IndexIn(ch, chans);
    assert chans[1..][i - 1] == ch;
  }

  lemma AnsweringAfter(s: State, e: Step, c: Caller)
    requires Enabled(s, e) && c in s.calls && s.calls[c].Answering?
    ensures !(e.CallStep? && e.c == c) ==> HeldByCall(Do(s, e).calls, c) == s.calls[c].chans
    ensures e.CallStep? && e.c == c ==> e.k == Answer && HeldByCall(Do(s, e).calls, c) == s.calls[c].chans[1..]
  {
  }

  // What WaitOf and AgentOf come to, owner by owner.

  lemma WithCall(s: State, ch: Chan, c: Caller)
    requires ch in s.book.owner && s.book.owner[ch] == OfCall(c)
    ensures WaitOf(s, ch) == Wait(0, IndexIn(ch, HeldByCall(s.calls, c)), 0, 0, 0, 0, 0)
    ensures AgentOf(s, ch) == TheCaller(c)
  {
  }

  lemma WithOutbox(s: State, ch: Chan)
    requires ch in s.book.owner && s.book.owner[ch] == Outbox
    ensures WaitOf(s, ch) == Wait(0, IndexIn(ch, s.outbox), 0, 0, 0, 0, 0) && AgentOf(s, ch) == TheWorker
  {
  }

  lemma WithReload(s: State, ch: Chan)
    requires ch in s.book.owner && s.book.owner[ch] == Reload
    ensures WaitOf(s, ch) == Wait(1, 0, 0, 0, 0, 0, |s.outbox|) && AgentOf(s, ch) == TheWorker
  {
  }

  lemma WithSweep(s: State, ch: Chan, a: App)
    requires ch in s.book.owner && s.book.owner[ch] == Sweep(a) && s.w.pc.Sweeping?
    ensures WaitOf(s, ch) == Wait(1, |s.w.pc.all.Keys|, 0, 0, 0, 0, |s.outbox|) && AgentOf(s, ch) == TheWorker
  {
  }

  lemma OfCallHelped(s: State, e: Step, ch: Chan, c: Caller)
    requires Unanswered(s, ch) && Enabled(s, e) && ch in s.book.owner && s.book.owner[ch] == OfCall(c)
    ensures Helps(s, e, ch)
  {
    OwnerAfter(s, e, ch);
    HeldWhereOwned(s, ch);
    AnsweringAfter(s, e, c);
    assert NextOwner(s, e, ch) == OfCall(c) || NextOwner(s, e, ch) == Answered;
    assert NextOwner(s, e, ch) == OfCall(c) && e.CallStep? && e.c == c ==> ch != s.calls[c].chans[0];
    hide *;
    if NextOwner(s, e, ch) == OfCall(c) {
      WithCall(s, ch, c);
      WithCall(Do(s, e), ch, c);
      if e.CallStep? && e.c == c { TailIndex(ch, s.calls[c].chans); }
    }
    Judge(s, e, ch);
  }

  /** Helps and Nearer, spelled out. */
  lemma Judge(s: State, e: Step, ch: Chan)
    requires Enabled(s, e)
    ensures var t := Do(s, e);
            && (ch in t.book.sent ==> Helps(s, e, ch))
            && (Nearer(WaitOf(t, ch), WaitOf(s, ch)) ==> Helps(s, e, ch))
            && (WaitOf(t, ch) == WaitOf(s, ch) ==> AgentOf(t, ch) == AgentOf(s, ch) ==> !MovedBy(e, AgentOf(s, ch)) ==>
                  Helps(s, e, ch))
    ensures forall a: Wait, b: Wait :: a.phase < b.phase ==> Nearer(a, b)
    ensures forall a: Wait, b: Wait :: a.phase == b.phase && a.level < b.level ==> Nearer(a, b)
    ensures forall a: Wait, b: Wait :: a.(outbox := 0) == b.(outbox := 0) && a.outbox < b.outbox ==> Nearer(a, b)
    ensures MovedBy(e, TheWorker) <==> ByWorker(e)
    ensures forall c :: MovedBy(e, TheCaller(c)) <==> e.CallStep? && e.c == c
  {
  }

  lemma OutboxAfter(s: State, e: Step)
    requires Enabled(s, e) && s.outbox != []
    ensures if ByWorker(e) then e == Deliver && Do(s, e).outbox == s.outbox[1..] && Do(s, e).w == s.w
            else Do(s, e).outbox == s.outbox && Do(s, e).w == s.w
  {
  }

  lemma NextFromOutbox(s: State, e: Step, ch: Chan)
    requires Enabled(s, e) && ch in s.book.owner && s.book.owner[ch] == Outbox
    ensures NextOwner(s, e, ch) == Outbox || NextOwner(s, e, ch) == Answered
    ensures e == Deliver && ch == s.outbox[0] ==> NextOwner(s, e, ch) == Answered
  {
  }

  lemma OutboxHelped(s: State, e: Step, ch: Chan)
    requires Unanswered(s, ch) && Enabled(s, e) && ch in s.book.owner && s.book.owner[ch] == Outbox
    ensures Helps(s, e, ch)
  {
    var t := Do(s, e);
    OwnerAfter(s, e, ch);
    HeldWhereOwned(s, ch);
    assert ch in s.outbox;
    hide *;
    NextFromOutbox(s, e, ch);
    OutboxAfter(s, e);
    if NextOwner(s, e, ch) == Outbox {
      WithOutbox(s, ch);
      WithOutbox(t, ch);
      if e == Deliver { TailIndex(ch, s.outbox); }
    }
    Judge(s, e, ch);
  }

  lemma ReloadingAfter(s: State, e: Step)
    requires Enabled(s, e) && s.w.pc.Reloading?
    ensures if ByWorker(e) then e.ReloadEnds? || (e == Deliver && |Do(s, e).outbox| < |s.outbox|)
            else Do(s, e).outbox == s.outbox
  {
  }

  lemma NextFromReload(s: State, e: Step, ch: Chan)
    requires Enabled(s, e) && ch in s.book.owner && s.book.owner[ch] == Reload
    ensures NextOwner(s, e, ch) == (if e.ReloadEnds? then Outbox else Reload) || NextOwner(s, e, ch) == Answered
  {
  }

  lemma ReloadHelped(s: State, e: Step, ch: Chan)
    requires Unanswered(s, ch) && Enabled(s, e) && ch in s.book.owner && s.book.owner[ch] == Reload
    ensures Helps(s, e, ch)
  {
    var t := Do(s, e);
    OwnerAfter(s, e, ch);
    HeldWhereOwned(s, ch);
    assert s.w.pc.Reloading?;
    hide *;
    NextFromReload(s, e, ch);
    ReloadingAfter(s, e);
    WithReload(s, ch);
    match NextOwner(s, e, ch) {
      case Outbox => WithOutbox(t, ch);
      case Reload => WithReload(t, ch);
      case _ =>
    }
    Judge(s, e, ch);
  }

  lemma SweepingAfter(s: State, e: Step)
    requires Enabled(s, e) && s.w.pc.Sweeping? && s.w.pc.all != map[]
    ensures var t := Do(s, e);
            t.w.pc.Sweeping? && if !ByWorker(e) then t.w.pc == s.w.pc && t.outbox == s.outbox
            else if e == Deliver then t.w.pc == s.w.pc && |t.outbox| < |s.outbox|
            else e.SweepOne? && |t.w.pc.all.Keys| < |s.w.pc.all.Keys|
  {
    if e.SweepOne? { assert (s.w.pc.all - {e.app}).Keys == s.w.pc.all.Keys - {e.app}; }
  }

  lemma NextFromSweep(s: State, e: Step, ch: Chan, a: App)
    requires Enabled(s, e) && ch in s.book.owner && s.book.owner[ch] == Sweep(a)
    ensures NextOwner(s, e, ch) in {Outbox, Sweep(a), Answered}
  {
  }

  lemma SweepHelped(s: State, e: Step, ch: Chan, a: App)
    requires Unanswered(s, ch) && Enabled(s, e) && ch in s.book.owner && s.book.owner[ch] == Sweep(a)
    ensures Helps(s, e, ch)
  {
    var t := Do(s, e);
    OwnerAfter(s, e, ch);
    HeldWhereOwned(s, ch);
    assert s.w.pc.Sweeping? && a in s.w.pc.all;
    hide *;
    NextFromSweep(s, e, ch, a);
    SweepingAfter(s, e);
    WithSweep(s, ch, a);
    match NextOwner(s, e, ch) {
      case Outbox => WithOutbox(t, ch);
      case Sweep(_) => WithSweep(t, ch, a);
      case _ =>
    }
    Judge(s, e, ch);
  }

  // ---- A waiter whose app is pending or in hand ----

  lemma LeastShrinks(ids: set<nat>, more: set<nat>)
    requires ids != {} && ids <= more
    ensures Least(more) <= Least(ids)
  {
  }

  /** The step takes app's waiters. */
  predicate Takes(s: State, e: Step, a: App)
    requires Enabled(s, e)
  {
    (e.TakeFor? && TakeApp(s.w, e.t) == a) || (e.Claim? && s.w.pc.app == a)
  }

  /** The rest of the way, which no call can lengthen. */
  predicate Downhill(w: Worker, v: Worker, was: nat, now: nat) {
    now < was || (now == was &&
    (StageOf(v.pc) < StageOf(w.pc) || (StageOf(v.pc) == StageOf(w.pc) && BatchLeft(v.pc) < BatchLeft(w.pc))))
  }

  /** The steps that leave the queue alone. */
  lemma QuietKeepsQueue(w: Worker, f: Fields, q: QuietKind, a: App)
    requires Queues(w) && QuietEnabled(w, f, q) && !q.Resolved? && !q.LeftOut? && !q.Decide?
    requires a in w.queue && w.pc != Checking(a) && InPass(w.pc)
    ensures var v := QuietMove(w, f, false, q); v.queue == w.queue && Downhill(w, v, PopPlace(w.pc), PopPlace(v.pc))
  {
  }

  lemma QuietInQueue(s: State, q: QuietKind, a: App)
    requires Queues(s.w) && Pass(s) && !s.done && Enabled(s, Quiet(q)) && a in s.w.queue
    requires s.w.pc != Checking(a) && s.w.pc != Claiming(a)
    ensures var t := Do(s, Quiet(q));
            t.w.pc == Checking(a) ||
            (a in t.w.queue && (IndexIn(a, t.w.queue) < IndexIn(a, s.w.queue)
              || (IndexIn(a, t.w.queue) == IndexIn(a, s.w.queue)
                  && Downhill(s.w, t.w, PopPlace(s.w.pc), PopPlace(t.w.pc)))))
  {
    match q
    case Resolved => MergedKeepsPlace(s.w, a);
    case LeftOut => MergedKeepsPlace(s.w, a);
    case Decide => if s.w.queue[0] != a { TailHas(a, s.w.queue); }
    case _ => QuietElsewhere(s, q, a);
  }

  lemma QuietElsewhere(s: State, q: QuietKind, a: App)
    requires Queues(s.w) && !s.done && Enabled(s, Quiet(q)) && a in s.w.queue
    requires !q.Resolved? && !q.LeftOut? && !q.Decide? && s.w.pc != Checking(a)
    ensures var t := Do(s, Quiet(q));
            t.w.queue == s.w.queue && Downhill(s.w, t.w, PopPlace(s.w.pc), PopPlace(t.w.pc))
  {
    assert Do(s, Quiet(q)).w == QuietMove(s.w, s.f, false, q) && InPass(s.w.pc);
    hide Do;
    hide QuietMove;
    QuietKeepsQueue(s.w, s.f, q, a);
  }

  lemma MergedKeepsPlace(w: Worker, a: App)
    requires Queues(w) && a in w.queue
    ensures a in Merged(w).queue && IndexIn(a, Merged(w).queue) == IndexIn(a, w.queue)
  {
    AddNewKeeps(w.queue, w.queued, w.out);
    IndexOfPrefix(a, w.queue, Merged(w).queue);
  }

  lemma TailHas(a: App, q: seq<App>)
    requires a in q && q[0] != a
    ensures a in q[1..] && IndexIn(a, q) == 1 + IndexIn(a, q[1..])
  {
    IndexFound(a, q);
    assert q[1..][IndexIn(a, q) - 1] == a;
  }

  lemma OtherInQueue(s: State, e: Step, a: App)
    requires Queues(s.w) && Pass(s) && !s.done && Enabled(s, e) && ByWorker(e) && !e.Quiet? && e != Deliver
    requires a in s.w.queue && s.w.pc != Checking(a) && s.w.pc != Claiming(a)
    ensures var t := Do(s, e); t.w.queue == s.w.queue && Downhill(s.w, t.w, PopPlace(s.w.pc), PopPlace(t.w.pc))
    ensures var t := Do(s, e); t.w.pc != Checking(a) && t.w.pc != Claiming(a)
  {
  }

  lemma QuietBatchDown(w: Worker, f: Fields, q: QuietKind)
    requires Queues(w) && QuietEnabled(w, f, q) && ResolvingBatch(w.pc)
    ensures var v := QuietMove(w, f, false, q);
            (v.pc == Deciding && v.out == []) || (ResolvingBatch(v.pc) && Downhill(w, v, 0, 0))
  {
  }

  lemma TakeForDown(w: Worker, k: TakeKind)
    requires TakeEnabled(w, k)
    ensures var v := TakeMove(w, k); ResolvingBatch(v.pc) && Downhill(w, v, 0, 0) && v.queue == w.queue
  {
  }

  lemma QuietTakeDown(w: Worker, f: Fields, q: QuietKind)
    requires Queues(w) && QuietEnabled(w, f, q) && q != Take && q != Halt
    ensures var v := QuietMove(w, f, false, q);
            Downhill(w, v, TakePlace(w.pc, f.wake), TakePlace(v.pc, QuietFields(w, f, false, q).wake))
  {
  }

  /** In the batch being resolved. */
  lemma InBatchDown(s: State, e: Step, a: App)
    requires Queues(s.w) && Pass(s) && !s.done && Enabled(s, e) && ByWorker(e) && e != Deliver && !Takes(s, e, a)
    requires a in InHand(s.w) && a !in s.w.queue && s.w.pc != Checking(a) && s.w.pc != Claiming(a)
    ensures var t := Do(s, e);
            a in InHand(t.w) && (a in t.w.queue || (ResolvingBatch(t.w.pc) && Downhill(s.w, t.w, 0, 0)))
  {
    InBatch(s.w, a);
    match e
    case Quiet(q) => QuietInBatch(s, q, a);
    case TakeFor(k) => InHandTake(s.w, k); TakeForDown(s.w, k);
  }

  lemma InBatch(w: Worker, a: App)
    requires Queues(w) && a in InHand(w) && a !in w.queue && w.pc != Checking(a) && w.pc != Claiming(a)
    ensures ResolvingBatch(w.pc)
  {
  }

  lemma QuietInBatch(s: State, q: QuietKind, a: App)
    requires Queues(s.w) && !s.done && Enabled(s, Quiet(q)) && ResolvingBatch(s.w.pc) && a in InHand(s.w)
    ensures var t := Do(s, Quiet(q));
            a in InHand(t.w) && (a in t.w.queue || (ResolvingBatch(t.w.pc) && Downhill(s.w, t.w, 0, 0)))
  {
    var v := QuietMove(s.w, s.f, s.done, q);
    assert Do(s, Quiet(q)).w == v && q != Take && q != Check;
    hide Do;
    hide QuietMove;
    hide Enabled;
    hide Queues;
    InHandQuiet(s.w, s.f, s.done, q);
    QuietBatchDown(s.w, s.f, q);
  }

  /** Only pending. */
  lemma PendingDown(s: State, e: Step, a: App)
    requires Queues(s.w) && Pass(s) && !s.done && !Swept(s.w.pc) && Enabled(s, e) && ByWorker(e) && e != Deliver
    requires a in s.f.pending.apps
    ensures var t := Do(s, e);
            a in InHand(t.w) || Downhill(s.w, t.w, TakePlace(s.w.pc, s.f.wake), TakePlace(t.w.pc, t.f.wake))
    ensures !Asleep(s)
  {
    match e
    case Quiet(q) => QuietPending(s, q, a);
    case TakeFor(k) => TakeForDown(s.w, k);
    case _ =>
  }

  lemma QuietPending(s: State, q: QuietKind, a: App)
    requires Queues(s.w) && !s.done && !Swept(s.w.pc) && Enabled(s, Quiet(q)) && a in s.f.pending.apps
    ensures var t := Do(s, Quiet(q));
            a in InHand(t.w) || Downhill(s.w, t.w, TakePlace(s.w.pc, s.f.wake), TakePlace(t.w.pc, t.f.wake))
    ensures !Asleep(s)
  {
    var v := QuietMove(s.w, s.f, s.done, q);
    var t := Do(s, Quiet(q));
    assert t.w == v && t.f == QuietFields(s.w, s.f, s.done, q) && q != Halt;
    hide Do;
    hide QuietMove;
    hide Queues;
    if q == Take { InHandQuiet(s.w, s.f, s.done, q); } else { QuietTakeDown(s.w, s.f, q); }
  }

  /** Queueing, level by level. */
  lemma Levels(s: State, a: App)
    ensures var (q, w, ob) := (Queueing(s, a), s.w, |s.outbox|);
            && (w.pc == Checking(a) ==> q == Wait(4, 0, 0, 1, 0, 0, ob))
            && (w.pc == Claiming(a) ==> q == Wait(4, 0, 0, 0, 0, 0, ob))
            && (a in w.queue ==> q.phase == 4 && q.level <= 1)
            && (a in w.queue && w.pc != Checking(a) && w.pc != Claiming(a) ==>
                  q == Wait(4, 1, IndexIn(a, w.queue), PopPlace(w.pc), StageOf(w.pc), BatchLeft(w.pc), ob))
            && (a in InHand(w) ==> q.phase == 4 && q.level <= 2)
            && (a in InHand(w) && a !in w.queue && w.pc != Checking(a) && w.pc != Claiming(a) ==>
                  q == Wait(4, 2, 0, 0, StageOf(w.pc), BatchLeft(w.pc), ob))
            && (a !in InHand(w) ==> q.phase == 4 && q.level == 3 && q.pos == 0 && q.place == TakePlace(w.pc, s.f.wake))
            && (a !in InHand(w) && !(Asleep(s) && Signallers(s.calls) != {}) ==>
                  q == Wait(4, 3, 0, TakePlace(w.pc, s.f.wake), StageOf(w.pc), BatchLeft(w.pc), ob))
            && (a !in InHand(w) && Asleep(s) && Signallers(s.calls) != {} ==>
                  q == Wait(4, 3, 0, 4, Least(Signallers(s.calls)), 0, ob))
  {
    assert a in s.w.queue ==> a in InHand(s.w);
    assert s.w.pc == Checking(a) || s.w.pc == Claiming(a) ==> a in InHand(s.w);
  }

  lemma DeliverFrame(s: State)
    requires Enabled(s, Deliver)
    ensures var t := Do(s, Deliver); t.w == s.w && t.f == s.f && t.calls == s.calls && |t.outbox| < |s.outbox|
  {
  }

  lemma CheckedGoesOn(s: State, e: Step, a: App)
    requires Enabled(s, e) && ByWorker(e) && e != Deliver && s.w.pc == Checking(a) && a !in s.f.dropped
    ensures Do(s, e).w.pc == Claiming(a)
  {
  }

  /** Of two ways, the one that is less far in its first difference is nearer. */
  lemma NearerIf(b: Wait, c: Wait)
    ensures b.phase < c.phase ==> Nearer(b, c)
    ensures b.phase == c.phase && b.level < c.level ==> Nearer(b, c)
    ensures b.phase == c.phase && b.level == c.level && b.pos < c.pos ==> Nearer(b, c)
    ensures b.phase == c.phase && b.level == c.level && b.pos == c.pos && b.place < c.place ==> Nearer(b, c)
    ensures b.phase == c.phase && b.level == c.level && b.pos == c.pos && b.place == c.place && b.stage < c.stage ==>
            Nearer(b, c)
    ensures b.(left := 0, outbox := 0) == c.(left := 0, outbox := 0) && b.left < c.left ==> Nearer(b, c)
    ensures b.(outbox := 0) == c.(outbox := 0) && b.outbox < c.outbox ==> Nearer(b, c)
  {
  }

  lemma QueueingDown(s: State, e: Step, a: App)
    requires Queues(s.w) && Pass(s) && !s.done && !Swept(s.w.pc) && Enabled(s, e) && ByWorker(e)
    requires !Takes(s, e, a) && a !in s.f.dropped && (a in s.f.pending.apps || a in InHand(s.w))
    ensures Nearer(Queueing(Do(s, e), a), Queueing(s, a))
  {
    var t := Do(s, e);
    Levels(s, a);
    Levels(t, a);
    NearerIf(Queueing(t, a), Queueing(s, a));
    if e == Deliver {
      DeliverFrame(s);
      hide *;
    } else if s.w.pc == Checking(a) {
      CheckedGoesOn(s, e, a);
      hide *;
    } else if s.w.pc == Claiming(a) {
      assert false;
    } else if a in s.w.queue {
      if e.Quiet? { QuietInQueue(s, e.q, a); } else { OtherInQueue(s, e, a); }
      hide *;
    } else if a in InHand(s.w) {
      InBatchDown(s, e, a);
      hide *;
    } else {
      PendingDown(s, e, a);
      hide *;
    }
  }

  /** Who must move while a waiter's app is pending or in hand. */
  ghost function QueueingAgent(s: State, a: App): Agent {
    if a !in InHand(s.w) && Asleep(s) && Signallers(s.calls) != {}
    then TheCaller(Least(Signallers(s.calls))) else TheWorker
  }

  /** What a call, or the end of the context, leaves alone. */
  lemma CallerFrame(s: State, e: Step)
    requires Enabled(s, e) && !ByWorker(e)
    ensures var t := Do(s, e); t.w == s.w && t.outbox == s.outbox && (s.f.wake ==> t.f.wake)
    ensures e.CallStep? && e.c in s.calls && s.calls[e.c].Signalling? ==> Do(s, e).f.wake
    ensures !Do(s, e).f.wake ==> Signallers(s.calls) <= Signallers(Do(s, e).calls)
  {
  }

  lemma QueueingCall(s: State, e: Step, a: App)
    requires Enabled(s, e) && !ByWorker(e) && (a in InHand(s.w) || (Asleep(s) ==> Signallers(s.calls) != {}))
    ensures var t := Do(s, e);
            Nearer(Queueing(t, a), Queueing(s, a))
            || (Queueing(t, a) == Queueing(s, a) && QueueingAgent(t, a) == QueueingAgent(s, a)
                && !MovedBy(e, QueueingAgent(s, a)))
  {
    var t := Do(s, e);
    CallerFrame(s, e);
    hide Enabled;
    hide Do;
    hide InHand;
    hide Signallers;
    if a !in InHand(s.w) && Asleep(s) && !t.f.wake { LeastShrinks(Signallers(s.calls), Signallers(t.calls)); }
    if a !in InHand(s.w) && Asleep(s) { LeastSignals(s); }
  }

  lemma LeastSignals(s: State)
    requires Signallers(s.calls) != {}
    ensures Least(Signallers(s.calls)) in s.calls && s.calls[Least(Signallers(s.calls))].Signalling?
  {
  }

  // ---- A waiting channel ----

  ghost predicate StillWaits(s: State, ch: Chan, a: App) { ch in s.book.owner && s.book.owner[ch] == Waiting(a) }

  lemma NotSweptWhileWaiting(s: State, ch: Chan, a: App)
    requires Unanswered(s, ch) && StillWaits(s, ch, a)
    ensures !Swept(s.w.pc) && s.book.reg[ch].app == a && ch in s.f.WaitersOf(a)
  {
    HeldWhereOwned(s, ch);
    assert Placed(s, ch, s.book.owner[ch]);
  }

  /** Taken by somebody, a channel has come nearer. */
  lemma NoLongerWaiting(s: State, ch: Chan)
    requires ch in s.book.owner && !s.book.owner[ch].Waiting?
    ensures WaitOf(s, ch).phase <= 1
  {
  }

  lemma WithForgetter(s: State, ch: Chan, a: App)
    requires StillWaits(s, ch, a) && Forgetters(s.calls, a) != {}
    ensures WaitOf(s, ch) == Wait(2, Least(Forgetters(s.calls, a)), 0, 0, 0, 0, 0)
    ensures AgentOf(s, ch) == TheCaller(Least(Forgetters(s.calls, a)))
  {
  }

  lemma WithEnd(s: State, ch: Chan, a: App)
    requires StillWaits(s, ch, a) && Forgetters(s.calls, a) == {} && s.done
    ensures WaitOf(s, ch) == Wait(3, 0, 0, SelectPlace(s.w.pc), StageOf(s.w.pc), BatchLeft(s.w.pc), |s.outbox|)
    ensures AgentOf(s, ch) == TheWorker
  {
  }

  lemma WithRegistrant(s: State, ch: Chan, a: App)
    requires StillWaits(s, ch, a) && Forgetters(s.calls, a) == {} && !s.done && Registrants(s.calls, a, ch) != {}
    ensures WaitOf(s, ch) == Wait(5, Least(Registrants(s.calls, a, ch)), 0, 0, 0, 0, 0)
    ensures AgentOf(s, ch) == TheCaller(Least(Registrants(s.calls, a, ch)))
  {
  }

  lemma WithQueueing(s: State, ch: Chan, a: App)
    requires StillWaits(s, ch, a) && Forgetters(s.calls, a) == {} && !s.done && Registrants(s.calls, a, ch) == {}
    ensures WaitOf(s, ch) == Queueing(s, a) && AgentOf(s, ch) == QueueingAgent(s, a) && Queueing(s, a).phase == 4
  {
  }

  lemma ForgettersAfter(s: State, e: Step, a: App)
    requires Enabled(s, e) && !(e.CallStep? && e.k.TakeForgotten? && s.calls[e.c].app == a)
    ensures Forgetters(s.calls, a) <= Forgetters(Do(s, e).calls, a)
    ensures forall c :: c in Forgetters(s.calls, a) ==> !(e.CallStep? && e.c == c)
  {
  }

  lemma ForgetterHelped(s: State, e: Step, ch: Chan, a: App)
    requires Enabled(s, e) && StillWaits(s, ch, a) && StillWaits(Do(s, e), ch, a) && Forgetters(s.calls, a) != {}
    requires !(e.CallStep? && e.k.TakeForgotten? && s.calls[e.c].app == a)
    ensures Helps(s, e, ch)
  {
    var t := Do(s, e);
    ForgettersAfter(s, e, a);
    hide *;
    LeastShrinks(Forgetters(s.calls, a), Forgetters(t.calls, a));
    WithForgetter(s, ch, a);
    WithForgetter(t, ch, a);
    NearerIf(WaitOf(t, ch), WaitOf(s, ch));
    Judge(s, e, ch);
  }

  /** Run is at its select, with the context ended. */
  predicate MaySweep(s: State) { s.w.pc == Select && s.done && s.outbox == [] }

  lemma EndingDown(s: State, e: Step)
    requires Enabled(s, e) && ByWorker(e) && s.done && !Swept(s.w.pc) && !MaySweep(s)
    ensures var t := Do(s, e);
            (t.w == s.w && |t.outbox| < |s.outbox|) || Downhill(s.w, t.w, SelectPlace(s.w.pc), SelectPlace(t.w.pc))
  {
    match e
    case Quiet(q) => QuietEnding(s.w, s.f, q);
    case TakeFor(k) => TakeForDown(s.w, k);
    case _ =>
  }

  lemma QuietEnding(w: Worker, f: Fields, q: QuietKind)
    requires QuietEnabled(w, f, q) && !Swept(w.pc) && w.pc != Select
    ensures var v := QuietMove(w, f, true, q); Downhill(w, v, SelectPlace(w.pc), SelectPlace(v.pc))
  {
  }

  lemma EndHelped(s: State, e: Step, ch: Chan, a: App)
    requires Enabled(s, e) && StillWaits(s, ch, a) && StillWaits(Do(s, e), ch, a)
    requires s.done && !Swept(s.w.pc) && !MaySweep(s)
    requires Forgetters(s.calls, a) == {} && Forgetters(Do(s, e).calls, a) == {}
    ensures Helps(s, e, ch)
  {
    var t := Do(s, e);
    assert t.done;
    if ByWorker(e) { EndingDown(s, e); } else { CallerFrame(s, e); }
    WithEnd(s, ch, a);
    WithEnd(t, ch, a);
    NearerIf(WaitOf(t, ch), WaitOf(s, ch));
    Judge(s, e, ch);
    hide Do;
    hide Enabled;
    hide WaitOf;
    hide AgentOf;
    hide Helps;
  }

  lemma OneRegistrant(s: State, a: App, ch: Chan)
    requires OwnChannels(s)
    ensures forall c :: c in Registrants(s.calls, a, ch) ==> Registrants(s.calls, a, ch) == {c}
  {
  }

  lemma RegistrantsAfterCall(s: State, c: Caller, k: CallKind, a: App, ch: Chan)
    requires CallEnabled(s, c, k) && ch in s.book.reg
    ensures Registrants(CallMove(s, c, k).calls, a, ch) == Registrants(s.calls, a, ch) - {c}
  {
  }

  lemma RegistrantsAfter(s: State, e: Step, a: App, ch: Chan)
    requires OwnChannels(s) && Enabled(s, e) && ch in s.book.reg
    ensures Registrants(Do(s, e).calls, a, ch) <= Registrants(s.calls, a, ch)
    ensures forall c :: c in Registrants(s.calls, a, ch) ==>
              Registrants(s.calls, a, ch) == {c}
              && if e.CallStep? && e.c == c then Registrants(Do(s, e).calls, a, ch) == {}
                 else Registrants(Do(s, e).calls, a, ch) == {c}
  {
    OneRegistrant(s, a, ch);
    if e.CallStep? { RegistrantsAfterCall(s, e.c, e.k, a, ch); } else { assert Do(s, e).calls == s.calls; }
    hide OwnChannels;
    hide Registrants;
  }

  lemma RegistrantHelped(s: State, e: Step, ch: Chan, a: App)
    requires OwnChannels(s) && ch in s.book.reg && Enabled(s, e) && StillWaits(s, ch, a) && StillWaits(Do(s, e), ch, a)
    requires Forgetters(s.calls, a) == {} && Forgetters(Do(s, e).calls, a) == {} && !s.done && !Do(s, e).done
    requires Registrants(s.calls, a, ch) != {}
    ensures Helps(s, e, ch)
  {
    var t := Do(s, e);
    RegistrantsAfter(s, e, a, ch);
    hide *;
    WithRegistrant(s, ch, a);
    var c := Least(Registrants(s.calls, a, ch));
    if e.CallStep? && e.c == c { WithQueueing(t, ch, a); } else { WithRegistrant(t, ch, a); }
    NearerIf(WaitOf(t, ch), WaitOf(s, ch));
    Judge(s, e, ch);
  }

  lemma Uncovered(s: State, ch: Chan, a: App)
    requires Unanswered(s, ch) && StillWaits(s, ch, a) && !s.done
    requires Forgetters(s.calls, a) == {} && Registrants(s.calls, a, ch) == {}
    ensures (a in s.f.pending.apps || a in InHand(s.w)) && a !in s.f.dropped
    ensures a in InHand(s.w) || (Asleep(s) ==> Signallers(s.calls) != {})
  {
    NotSweptWhileWaiting(s, ch, a);
    forall c ensures !(c in s.calls && s.calls[c] == Registered(a, ch)) { assert c !in Registrants(s.calls, a, ch); }
    forall c ensures !(c in s.calls && s.calls[c] == Forgetting(a)) { assert c !in Forgetters(s.calls, a); }
    assert !CallCovers(s.calls, a, ch);
    if a !in InHand(s.w) && Asleep(s) {
      var c :| c in s.calls && s.calls[c].Signalling?;
      assert c in Signallers(s.calls);
    }
  }

  lemma QueueingHelped(s: State, e: Step, ch: Chan, a: App)
    requires Unanswered(s, ch) && Enabled(s, e) && StillWaits(s, ch, a)
    requires StillWaits(Do(s, e), ch, a) && !Takes(s, e, a)
    requires Forgetters(s.calls, a) == {} && Forgetters(Do(s, e).calls, a) == {} && !s.done && !Do(s, e).done
    requires Registrants(s.calls, a, ch) == {}
    ensures Helps(s, e, ch)
  {
    var t := Do(s, e);
    Uncovered(s, ch, a);
    NotSweptWhileWaiting(s, ch, a);
    RegistrantsAfter(s, e, a, ch);
    assert Queues(s.w) && Pass(s);
    hide *;
    WithQueueing(s, ch, a);
    WithQueueing(t, ch, a);
    if ByWorker(e) { QueueingDown(s, e, a); } else { QueueingCall(s, e, a); }
    Judge(s, e, ch);
  }

  lemma Phases(s: State, ch: Chan, a: App)
    requires StillWaits(s, ch, a)
    ensures WaitOf(s, ch).phase >= 2
    ensures Forgetters(s.calls, a) == {} ==> WaitOf(s, ch).phase >= 3
    ensures Forgetters(s.calls, a) == {} && !s.done ==> WaitOf(s, ch).phase >= 4
  {
  }

  lemma NextFromWaiting(s: State, e: Step, ch: Chan, a: App)
    requires Enabled(s, e) && StillWaits(s, ch, a) && NextOwner(s, e, ch).Waiting?
    ensures NextOwner(s, e, ch) == Waiting(a) && !Takes(s, e, a)
    ensures !(e.CallStep? && e.k.TakeForgotten? && s.calls[e.c].app == a)
  {
  }

  lemma WaitingHelped(s: State, e: Step, ch: Chan, a: App)
    requires Unanswered(s, ch) && Enabled(s, e) && StillWaits(s, ch, a) && !MaySweep(s)
    ensures Helps(s, e, ch)
  {
    var t := Do(s, e);
    OwnerAfter(s, e, ch);
    NotSweptWhileWaiting(s, ch, a);
    Phases(s, ch, a);
    Judge(s, e, ch);
    NearerIf(WaitOf(t, ch), WaitOf(s, ch));
    assert OwnChannels(s) && ch in s.book.reg;
    if !NextOwner(s, e, ch).Waiting? {
      NoLongerWaiting(t, ch);
    } else {
      NextFromWaiting(s, e, ch, a);
      assert StillWaits(t, ch, a);
      hide *;
      if Forgetters(s.calls, a) != {} {
        ForgetterHelped(s, e, ch, a);
      } else if Forgetters(t.calls, a) != {} {
        WithForgetter(t, ch, a);
      } else if s.done {
        EndHelped(s, e, ch, a);
      } else if t.done {
        WithEnd(t, ch, a);
      } else if Registrants(s.calls, a, ch) != {} {
        RegistrantHelped(s, e, ch, a);
      } else {
        QueueingHelped(s, e, ch, a);
      }
    }
  }

  /** Short of Run's select at the end of the context, every step, of whatever call or of the
      worker, brings an unanswered waiter nearer or leaves it as near, waiting for the same agent. */
  lemma StepHelps(s: State, e: Step, ch: Chan)
    requires Unanswered(s, ch) && Enabled(s, e) && !MaySweep(s)
    ensures Helps(s, e, ch)
  {
    assert Owned(s);
    HeldWhereOwned(s, ch);
    hide *;
    match s.book.owner[ch]
    case OfCall(c) => OfCallHelped(s, e, ch, c);
    case Outbox => OutboxHelped(s, e, ch);
    case Reload => ReloadHelped(s, e, ch);
    case Sweep(a) => SweepHelped(s, e, ch, a);
    case Waiting(a) => assert StillWaits(s, ch, a); WaitingHelped(s, e, ch, a);
  }

  predicate CanMove(s: State, a: Agent) {
    match a
    case TheWorker => !AtRest(s)
    case TheCaller(c) => c in s.calls
  }

  /** The agent a waiter waits for has a step to take. */
  lemma AgentCanMove(s: State, ch: Chan)
    requires Unanswered(s, ch) && !MaySweep(s)
    ensures CanMove(s, AgentOf(s, ch))
  {
    assert Owned(s) && Queues(s.w);
    HeldWhereOwned(s, ch);
    match s.book.owner[ch]
    case OfCall(c) =>
    case Outbox =>
    case Reload =>
    case Sweep(a) =>
    case Waiting(a) => WaitedAgentCanMove(s, ch, a);
  }

  lemma WaitedAgentCanMove(s: State, ch: Chan, a: App)
    requires Unanswered(s, ch) && StillWaits(s, ch, a) && !MaySweep(s)
    ensures CanMove(s, AgentOf(s, ch))
  {
    NotSweptWhileWaiting(s, ch, a);
    if Forgetters(s.calls, a) != {} {
      WithForgetter(s, ch, a);
    } else if s.done {
      WithEnd(s, ch, a);
    } else if Registrants(s.calls, a, ch) != {} {
      WithRegistrant(s, ch, a);
    } else {
      Uncovered(s, ch, a);
      WithQueueing(s, ch, a);
      AtRestNothingInHand(s);
    }
  }

  lemma AtRestNothingInHand(s: State)
    requires Inv(s)
    ensures AtRest(s) && !s.w.pc.Halted? ==> Asleep(s) && InHand(s.w) == {}
    ensures Signallers(s.calls) != {} ==> Least(Signallers(s.calls)) in s.calls
  {
  }

  lemma StaysEarly(s: State, e: Step, ch: Chan)
    requires Enabled(s, e) && Early(s, ch) && s.book.reg[ch].at < s.clock && ch in Do(s, e).book.reg
    requires Do(s, e).book.reg[ch] == s.book.reg[ch]
    ensures Early(Do(s, e), ch)
  {
  }

  lemma StillUnanswered(s: State, e: Step, ch: Chan)
    requires Unanswered(s, ch) && Enabled(s, e) && ch !in Do(s, e).book.sent
    ensures Unanswered(Do(s, e), ch)
  {
    assert Inv(s) && OwnChannels(s) && Early(s, ch) && ch !in s.book.sent && Owned(s) && ch in s.book.reg;
    assert s.book.reg[ch].at < s.clock;
    hide *;
    InvStep(s, e);
    OwnChannelsStep(s, e);
    OwnerAfter(s, e, ch);
    StaysEarly(s, e, ch);
    Gathered(Do(s, e), ch);
  }

  lemma Gathered(s: State, ch: Chan)
    requires Inv(s) && OwnChannels(s) && Early(s, ch) && ch !in s.book.sent
    ensures Unanswered(s, ch)
  {
    hide Inv;
    hide OwnChannels;
    hide Early;
  }

  // ---- Endless runs ----

  predicate Moves(o: Option<Step>, a: Agent) { o.Some? && MovedBy(o.value, a) }

  ghost predicate Follows(s: State, o: Option<Step>, t: State) {
    match o
    case None => t == s
    case Some(e) => Enabled(s, e) && t == Do(s, e)
  }

  /** An endless run of everybody, in which moments may pass without a step. */
  ghost predicate Endless(states: nat -> State, steps: nat -> Option<Step>) {
    states(0) == INIT && forall n: nat :: Follows(states(n), steps(n), states(n + 1))
  }

  /** At moment m the agent moves, or has no move to make. */
  ghost predicate Settled(states: nat -> State, steps: nat -> Option<Step>, a: Agent, m: nat) {
    !CanMove(states(m), a) || Moves(steps(m), a)
  }

  ghost predicate SettledFrom(states: nat -> State, steps: nat -> Option<Step>, a: Agent, n: nat) {
    exists m: nat :: m >= n && Settled(states, steps, a, m)
  }

  /** Whoever can go on does sooner or later, or can no longer. */
  ghost predicate Fair(states: nat -> State, steps: nat -> Option<Step>) {
    forall a: Agent, n: nat :: SettledFrom(states, steps, a, n)
  }

  ghost predicate SelectFrom(states: nat -> State, n: nat) { exists m: nat :: m >= n && MaySweep(states(m)) }

  /** Run's select, met again and again with the context ended, takes that case at last. */
  ghost predicate SelectFair(states: nat -> State, steps: nat -> Option<Step>) {
    (forall n: nat :: SelectFrom(states, n)) ==> exists m: nat :: steps(m) == Some(SweepStart)
  }

  lemma {:induction false} Along(states: nat -> State, steps: nat -> Option<Step>, n: nat)
    requires Endless(states, steps)
    ensures Inv(states(n)) && OwnChannels(states(n))
  {
    if n == 0 {
      InvInit();
    } else {
      Along(states, steps, n - 1);
      assert Follows(states(n - 1), steps(n - 1), states(n));
      if steps(n - 1).Some? {
        InvStep(states(n - 1), steps(n - 1).value);
        OwnChannelsStep(states(n - 1), steps(n - 1).value);
      }
    }
  }

  /** The waiter has its answer, Run may end, or the waiter is nearer than w. */
  ghost predicate Nearing(s: State, ch: Chan, w: Wait) {
    ch in s.book.sent || MaySweep(s) || (Unanswered(s, ch) && Nearer(WaitOf(s, ch), w))
  }

  /** One moment of a run: nearer, or as near and waiting for the same agent, who did not move. */
  lemma Moment(s: State, o: Option<Step>, t: State, ch: Chan)
    requires Unanswered(s, ch) && !MaySweep(s) && Follows(s, o, t)
    ensures Nearing(t, ch, WaitOf(s, ch))
            || (Unanswered(t, ch) && WaitOf(t, ch) == WaitOf(s, ch) && AgentOf(t, ch) == AgentOf(s, ch)
                && !Moves(o, AgentOf(s, ch)))
  {
    if o.Some? {
      StepHelps(s, o.value, ch);
    }
    if ch !in t.book.sent { UnansweredFollows(s, o, t, ch); }
    hide Unanswered;
    hide WaitOf;
    hide AgentOf;
    hide Nearer;
  }

  /** When its agent has moved, the waiter is nearer. */
  lemma Until(states: nat -> State, steps: nat -> Option<Step>, ch: Chan, n: nat, m: nat, a: Agent) returns (k: nat)
    requires Endless(states, steps) && Unanswered(states(n), ch) && n <= m
    requires a == AgentOf(states(n), ch) && Settled(states, steps, a, m)
    ensures k >= n && Nearing(states(k), ch, WaitOf(states(n), ch))
    decreases m - n
  {
    k := n;
    var s, t := states(n), states(n + 1);
    assert Follows(s, steps(n), t);
    hide Unanswered;
    hide WaitOf;
    hide AgentOf;
    hide CanMove;
    hide Nearer;
    hide Follows;
    hide Moves;
    if MaySweep(s) { return; }
    AgentCanMove(s, ch);
    Moment(s, steps(n), t, ch);
    if Nearing(t, ch, WaitOf(s, ch)) { return n + 1; }
    k := Until(states, steps, ch, n + 1, m, a);
  }

  lemma NearerSpelledOut(b: Wait, c: Wait)
    requires Nearer(b, c)
    ensures b.phase < c.phase || (b.phase == c.phase && (b.level < c.level || (b.level == c.level && (b.pos < c.pos
            || (b.pos == c.pos && (b.place < c.place || (b.place == c.place && (b.stage < c.stage
            || (b.stage == c.stage && (b.left < c.left || (b.left == c.left && b.outbox < c.outbox)))))))))))
  {
  }

  lemma {:induction false} Comes(states: nat -> State, steps: nat -> Option<Step>, ch: Chan, n: nat, w: Wait)
    returns (m: nat)
    requires Endless(states, steps) && Fair(states, steps) && Unanswered(states(n), ch) && w == WaitOf(states(n), ch)
    ensures m >= n && (ch in states(m).book.sent || MaySweep(states(m)))
    decreases w.phase, w.level, w.pos, w.place, w.stage, w.left, w.outbox
  {
    var a := AgentOf(states(n), ch);
    assert SettledFrom(states, steps, a, n);
    var j: nat :| j >= n && Settled(states, steps, a, j);
    hide *;
    m := Until(states, steps, ch, n, j, a);
    Arrived(states(m), ch, w);
    if !(ch in states(m).book.sent || MaySweep(states(m))) {
      NearerSpelledOut(WaitOf(states(m), ch), w);
      m := Comes(states, steps, ch, m, WaitOf(states(m), ch));
    }
  }

  lemma Arrived(s: State, ch: Chan, w: Wait)
    requires Nearing(s, ch, w)
    ensures ch in s.book.sent || MaySweep(s) || (Unanswered(s, ch) && Nearer(WaitOf(s, ch), w))
  {
  }

  lemma {:induction false} SweptStays(states: nat -> State, steps: nat -> Option<Step>, n: nat, m: nat)
    requires Endless(states, steps) && n <= m && Swept(states(n).w.pc)
    ensures Swept(states(m).w.pc)
  {
    if n < m {
      SweptStays(states, steps, n, m - 1);
      assert Follows(states(m - 1), steps(m - 1), states(m));
      if steps(m - 1).Some? { SweptStep(states(m - 1), steps(m - 1).value); }
    }
  }

  lemma SweptStep(s: State, e: Step)
    requires Enabled(s, e) && (Swept(s.w.pc) || e == SweepStart)
    ensures Swept(Do(s, e).w.pc)
  {
  }

  lemma {:induction false} UnansweredOn(states: nat -> State, steps: nat -> Option<Step>, ch: Chan, n: nat, m: nat)
    requires Endless(states, steps) && n <= m && Unanswered(states(n), ch)
    requires forall k: nat :: ch !in states(k).book.sent
    ensures Unanswered(states(m), ch)
  {
    hide *;
    if n < m {
      NextMoment(states, steps, m - 1);
      UnansweredOn(states, steps, ch, n, m - 1);
      UnansweredFollows(states(m - 1), steps(m - 1), states(m), ch);
    }
  }

  lemma NextMoment(states: nat -> State, steps: nat -> Option<Step>, n: nat)
    requires Endless(states, steps)
    ensures Follows(states(n), steps(n), states(n + 1))
  {
  }

  lemma UnansweredFollows(s: State, o: Option<Step>, t: State, ch: Chan)
    requires Unanswered(s, ch) && Follows(s, o, t) && ch !in t.book.sent
    ensures Unanswered(t, ch)
  {
    if o.Some? { StillUnanswered(s, o.value, ch); }
    hide Unanswered;
  }

  /** As long as the waiter has no answer, Run comes by its select again, with the context ended. */
  lemma SelectAgain(states: nat -> State, steps: nat -> Option<Step>, ch: Chan, i: nat, n: nat)
    requires Endless(states, steps) && Fair(states, steps) && Unanswered(states(i), ch)
    requires forall k: nat :: ch !in states(k).book.sent
    ensures SelectFrom(states, n)
  {
    var from := if n > i then n else i;
    hide Unanswered;
    UnansweredOn(states, steps, ch, i, from);
    var m := Comes(states, steps, ch, from, WaitOf(states(from), ch));
    assert ch !in states(m).book.sent;
  }

  /** Once the final sweep has begun, the waiter is answered. */
  lemma SweptIsAnswered(states: nat -> State, steps: nat -> Option<Step>, ch: Chan, n: nat)
    requires Endless(states, steps) && Fair(states, steps) && Unanswered(states(n), ch) && Swept(states(n).w.pc)
    ensures exists m: nat :: ch in states(m).book.sent
  {
    hide Unanswered;
    var m := Comes(states, steps, ch, n, WaitOf(states(n), ch));
    SweptStays(states, steps, n, m);
  }

  /** Whatever calls come and go, in every fair run each channel registered before Run's final
      sweep receives an answer. */
  lemma EveryWaiterIsAnswered(states: nat -> State, steps: nat -> Option<Step>, i: nat, ch: Chan)
    requires Endless(states, steps) && Fair(states, steps) && SelectFair(states, steps)
    requires ch in states(i).book.reg && !Swept(states(i).w.pc)
    ensures exists m: nat :: ch in states(m).book.sent
  {
    if forall k: nat :: ch !in states(k).book.sent {
      Along(states, steps, i);
      assert Unanswered(states(i), ch);
      hide Unanswered;
      forall n: nat ensures SelectFrom(states, n) { SelectAgain(states, steps, ch, i, n); }
      var m: nat :| steps(m) == Some(SweepStart);
      assert Follows(states(m), steps(m), states(m + 1));
      SweptStep(states(m), SweepStart);
      hide *;
      if m < i {
        SweptStays(states, steps, m + 1, i);
      } else {
        UnansweredOn(states, steps, ch, i, m + 1);
        SweptIsAnswered(states, steps, ch, m + 1);
      }
    }
  }
}
