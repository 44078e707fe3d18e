/** The reload worker, once no call disturbs it, comes to rest: it answers everyone. */
module ReloadLiveness {
  import opened Order
  import opened ReloadWorkers
  import opened ReloadProtocol
  import opened ReloadTheorems

  predicate ByWorker(e: Step) { !e.CallStep? && !e.Cancel? }

  /** Asleep without a token and with no end in sight, or returned. */
  predicate AtRest(s: State) {
    s.outbox == [] && (s.w.pc.Halted? || (s.w.pc == Select && !s.f.wake && !s.done))
  }

  // ---- Every step of the worker brings it nearer to rest ----

  /** What is left to do, the weightiest first. A lookup may queue any number of apps and an
      answer may go to any number of waiters, so no single number bounds it. */
  datatype Rank = Rank(token: nat, unswept: nat, pending: nat, stage: nat, left: nat, place: nat, outbox: nat)

  predicate Below(a: Rank, b: Rank) {
    a.token < b.token || (a.token == b.token &&
    (a.unswept < b.unswept || (a.unswept == b.unswept &&
    (a.pending < b.pending || (a.pending == b.pending &&
    (a.stage < b.stage || (a.stage == b.stage &&
    (a.left < b.left || (a.left == b.left &&
    (a.place < b.place || (a.place == b.place && a.outbox < b.outbox)))))))))))
  }

  predicate Swept(pc: Pc) { pc.Sweeping? || pc.Halted? }

  function SweptAt(pc: Pc): nat
    requires Swept(pc)
  {
    pc.sweptAt
  }

  /** How far the batch is from being resolved. */
  function StageOf(pc: Pc): nat {
    match pc
    case LookingUp => 4
    case LookingUpApps => 3
    case Failing(_) => 2
    case Resolving(_) => 2
    case LeavingOut(_) => 1
    case _ => 0
  }

  function LeftOf(w: Worker): nat {
    match w.pc
    case Failing(left) => |left|
    case Resolving(left) => |left|
    case LeavingOut(rest) => |rest|
    case Sweeping(all, _) => |all.Keys|
    case LookingUp => 0
    case LookingUpApps => 0
    case Halted(_) => 0
    case _ => |w.queue|
  }

  function PlaceOf(pc: Pc): nat {
    match pc
    case Woken => 7
    case Checking(_) => 6
    case Claiming(_) => 5
    case Reloading(_, _, _) => 4
    case Taking(_) => 3
    case Deciding => 2
    case Select => 1
    case Sweeping(_, _) => 1
    case _ => 0
  }

  function RankOf(s: State): Rank {
    Rank(if s.f.wake then 1 else 0, if Swept(s.w.pc) then 0 else 1, if s.f.pending.Empty() then 0 else 1,
         StageOf(s.w.pc), LeftOf(s.w), PlaceOf(s.w.pc), |s.outbox|)
  }

  lemma TakeStepsDown(s: State)
    requires Enabled(s, Quiet(Take))
    ensures Below(RankOf(Move(s, Quiet(Take))), RankOf(s))
  {
  }

  lemma DecideStepsDown(s: State)
    requires Enabled(s, Quiet(Decide))
    ensures Below(RankOf(Move(s, Quiet(Decide))), RankOf(s))
  {
  }

  lemma ResolvedStepsDown(s: State, q: QuietKind)
    requires Enabled(s, Quiet(q)) && ResolvingBatch(s.w.pc)
    ensures Below(RankOf(Move(s, Quiet(q))), RankOf(s))
  {
  }

  lemma OtherStepsDown(s: State, q: QuietKind)
    requires Enabled(s, Quiet(q)) && !ResolvingBatch(s.w.pc) && q != Take && q != Decide
    ensures Below(RankOf(Move(s, Quiet(q))), RankOf(s))
  {
  }

  lemma QuietStepsDown(s: State, q: QuietKind)
    requires Enabled(s, Quiet(q))
    ensures Below(RankOf(Move(s, Quiet(q))), RankOf(s))
  {
    hide Move;
    hide RankOf;
    hide Below;
    if ResolvingBatch(s.w.pc) { ResolvedStepsDown(s, q); }
    else if q == Take { TakeStepsDown(s); }
    else if q == Decide { DecideStepsDown(s); }
    else { OtherStepsDown(s, q); }
  }

  lemma ResolvingStepsDown(s: State, k: TakeKind)
    requires Enabled(s, TakeFor(k))
    ensures Below(RankOf(Move(s, TakeFor(k))), RankOf(s))
  {
  }

  lemma ReloadStepsDown(s: State, e: Step)
    requires Enabled(s, e) && (e.Claim? || e.ReloadEnds?)
    ensures Below(RankOf(Move(s, e)), RankOf(s))
  {
  }

  lemma SweepStepsDown(s: State, e: Step)
    requires Enabled(s, e) && (e.SweepStart? || e.SweepOne?)
    ensures Below(RankOf(Move(s, e)), RankOf(s))
  {
    if e.SweepOne? { assert (s.w.pc.all - {e.app}).Keys == s.w.pc.all.Keys - {e.app}; }
  }

  lemma DeliverStepsDown(s: State)
    requires Enabled(s, Deliver)
    ensures Below(RankOf(Move(s, Deliver)), RankOf(s))
  {
  }

  lemma StepsDown(s: State, e: Step)
    requires Enabled(s, e) && ByWorker(e)
    ensures Below(RankOf(Do(s, e)), RankOf(s))
  {
    assert RankOf(Do(s, e)) == RankOf(Move(s, e));
    hide Do;
    hide Move;
    hide RankOf;
    match e
    case Quiet(q) => QuietStepsDown(s, q);
    case TakeFor(k) => ResolvingStepsDown(s, k);
    case Claim => ReloadStepsDown(s, e);
    case ReloadEnds(_, _) => ReloadStepsDown(s, e);
    case SweepStart => SweepStepsDown(s, e);
    case SweepOne(_) => SweepStepsDown(s, e);
    case Deliver => DeliverStepsDown(s);
  }

  // ---- Runs of the worker alone ----

  /** An endless run in which, until it rests, only the worker moves; the outside world answers
      as it likes. */
  ghost predicate Alone(states: nat -> State, steps: nat -> Step) {
    forall n: nat :: AtRest(states(n))
      || (ByWorker(steps(n)) && Enabled(states(n), steps(n)) && states(n + 1) == Do(states(n), steps(n)))
  }

  /** What the worker's steps leave alone, and that a sweep since then came later. */
  ghost predicate Since(s: State, t: State) {
    && t.calls == s.calls && t.done == s.done && t.book.reg == s.book.reg && t.clock >= s.clock
    && (Swept(s.w.pc) ==> Swept(t.w.pc) && SweptAt(t.w.pc) == SweptAt(s.w.pc))
    && (!Swept(s.w.pc) && Swept(t.w.pc) ==> SweptAt(t.w.pc) >= s.clock)
  }

  lemma SinceStep(s: State, e: Step, t: State)
    requires Enabled(s, e) && ByWorker(e) && Since(Do(s, e), t)
    ensures Since(s, t)
  {
  }

  lemma {:induction false} RestsFrom(states: nat -> State, steps: nat -> Step, i: nat, r: Rank)
    requires Alone(states, steps) && Reachable(states(i)) && r == RankOf(states(i))
    ensures exists n: nat :: n >= i && Reachable(states(n)) && AtRest(states(n)) && Since(states(i), states(n))
    decreases r.token, r.unswept, r.pending, r.stage, r.left, r.place, r.outbox
  {
    if !AtRest(states(i)) {
      StepsDown(states(i), steps(i));
      ReachableStep(states(i), steps(i));
      RestsFrom(states, steps, i + 1, RankOf(states(i + 1)));
      var n: nat :| n >= i + 1 && Reachable(states(n)) && AtRest(states(n)) && Since(states(i + 1), states(n));
      SinceStep(states(i), steps(i), states(n));
    }
  }

  /** Left alone by callers, the worker comes to rest after finitely many steps, whatever the
      outside world answers; and if Run's final sweep was still ahead, everyone registered has
      then been answered. */
  lemma EveryoneIsAnswered(states: nat -> State, steps: nat -> Step)
    requires Alone(states, steps) && Reachable(states(0)) && states(0).calls == map[] && !Swept(states(0).w.pc)
    ensures exists n: nat :: AtRest(states(n)) && states(n).book.reg == states(0).book.reg
              && forall ch :: ch in states(0).book.reg ==> ch in states(n).book.sent
  {
    RestsFrom(states, steps, 0, RankOf(states(0)));
    var n: nat :| Reachable(states(n)) && AtRest(states(n)) && Since(states(0), states(n));
    AllAnsweredAtRest(states(0), states(n));
  }

  lemma AllAnsweredAtRest(s: State, t: State)
    requires Reachable(s) && Reachable(t) && AtRest(t) && Since(s, t) && s.calls == map[] && !Swept(s.w.pc)
    ensures forall ch :: ch in s.book.reg ==> ch in t.book.sent
  {
    ReachableInv(s);
    forall ch | ch in s.book.reg ensures ch in t.book.sent {
      assert s.book.reg[ch].at < s.clock;
      if t.w.pc.Halted? {
        if ch !in t.book.sent { HaltedMeansAnswered(t, ch); }
      } else {
        AsleepMeansAnswered(t);
      }
    }
  }
}
