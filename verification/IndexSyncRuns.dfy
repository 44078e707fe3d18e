/** Whole runs of an index sync: server events, results early, late and repeated, dispatch
    errors, retry timers and the purge of varssync.go, in any order as time passes. */
module IndexSyncRuns {
  import opened Common
  import opened IndexSyncs

  /** The in-flight window an attempt opened; closed by its dispatch error or its result. */
  datatype Window = Window(server: Server, until: int, open: bool)

  datatype State = State(
    s: Syncs, now: Time,
    log: map<Attempt, Window>,      // history: every attempt dispatched
    timers: map<nat, nat>)          // history: retry timers started, by state

  datatype Step =
    | Tick(seconds: nat)
    | Online(server: Server, delay: nat)              // delay: from its first clock reading to claimLocked's
    | Heartbeat(server: Server)                       // from the agent, or a retry timer
    | DispatchFails(a: Attempt)
    | Answer(a: Attempt, res: Result)
    | Purge(server: Server)

  ghost predicate Init(x: State) { x.s == Syncs(map[], 0) && x.log == map[] && x.timers == map[] }

  predicate Enabled(x: State, e: Step) {
    match e
    case DispatchFails(a) => a in x.log
    case Answer(a, _) => a in x.log
    case _ => true
  }

  function Claimed(x: State, server: Server, r: (Syncs, Option<Attempt>)): State {
    match r.1
    case None => x.(s := r.0)
    case Some(a) => x.(s := r.0, log := x.log[a := Window(server, x.now + SYNC_TIMEOUT, true)])
  }

  function Close(log: map<Attempt, Window>, a: Attempt): map<Attempt, Window>
    requires a in log
  {
    log[a := log[a].(open := false)]
  }

  function Started(timers: map<nat, nat>, id: nat): nat { if id in timers then timers[id] else 0 }

  function Do(x: State, e: Step): State
    requires Enabled(x, e)
  {
    match e
    case Tick(seconds) => x.(now := x.now + seconds)
    case Online(server, delay) =>
      var later := x.(now := x.now + delay);
      Claimed(later, server, x.s.Online(server, x.now, later.now))
    case Heartbeat(server) => Claimed(x, server, x.s.Heartbeat(server, x.now))
    case DispatchFails(a) =>
      var server := x.log[a].server;
      x.(s := x.s.DispatchFailed(server, a), log := if x.s.Current(server, a) then Close(x.log, a) else x.log)
    case Answer(a, res) =>
      var server := x.log[a].server;
      var (s, timer) := x.s.Settle(server, a, res);
      x.(s := s, log := if x.s.Current(server, a) then Close(x.log, a) else x.log,
         timers := if timer then x.timers[a.id := Started(x.timers, a.id) + 1] else x.timers)
    case Purge(server) => x.(s := x.s.Without(server))
  }

  predicate Live(x: State, a: Attempt) { a in x.log && x.log[a].open && x.now < x.log[a].until }

  ghost predicate Current(x: State, a: Attempt) { a in x.log && x.s.Current(x.log[a].server, a) }

  // ---- What every step keeps ----

  /** A pending state: within its budget, its window that of its latest attempt, all its
      attempts its server's, its retry timer started as `retried` says. */
  ghost predicate EntryOk(x: State, server: Server)
    requires server in x.s.pending
  {
    var e := x.s.pending[server];
    && e.id < x.s.made && 1 <= e.attempts <= MAX_ATTEMPTS
    && Mirrors(x.log, e)
    && (forall a :: a in x.log && a.id == e.id ==> x.log[a].server == server && a.n <= e.attempts)
    && Started(x.timers, e.id) == (if e.retried then 1 else 0)
  }

  ghost predicate Mirrors(log: map<Attempt, Window>, e: Entry) {
    var a := Attempt(e.id, e.attempts);
    a in log && (if log[a].open then e.inFlightUntil == log[a].until else e.inFlightUntil == ZERO_TIME)
  }

  ghost predicate HistoryOk(x: State) {
    && (forall a :: a in x.log ==> a.id < x.s.made && 1 <= a.n <= MAX_ATTEMPTS)
    && (forall id: nat :: Started(x.timers, id) <= if id < x.s.made then 1 else 0)
  }

  ghost predicate Inv(x: State) {
    HistoryOk(x) && forall v :: v in x.s.pending ==> EntryOk(x, v)
  }

  /** Only one server's entry, and the history of the state with this id, were touched. */
  ghost predicate OnlyTouched(x: State, y: State, server: Server, id: nat) {
    && x.s.made <= y.s.made
    && (forall v :: v in y.s.pending && v != server ==> v in x.s.pending && y.s.pending[v] == x.s.pending[v])
    && (forall a: Attempt :: a in y.log && a.id != id ==> a in x.log && y.log[a] == x.log[a])
    && (forall a: Attempt :: a in x.log ==> a in y.log)
    && (forall i: nat :: i != id ==> Started(y.timers, i) == Started(x.timers, i))
  }

  lemma DistinctStates(x: State, v: Server, w: Server)
    requires Inv(x) && v in x.s.pending && w in x.s.pending && v != w
    ensures x.s.pending[v].id != x.s.pending[w].id
  {
    var a := Attempt(x.s.pending[v].id, x.s.pending[v].attempts);
    assert EntryOk(x, v) && EntryOk(x, w);
    assert a in x.log && x.log[a].server == v;
  }

  lemma Touched(x: State, y: State, server: Server, id: nat)
    requires Inv(x) && OnlyTouched(x, y, server, id)
    requires id < x.s.made ==> server in x.s.pending && x.s.pending[server].id == id
    requires server in y.s.pending ==> EntryOk(y, server)
    requires forall a: Attempt :: a in y.log && a.id == id ==> a.id < y.s.made && 1 <= a.n <= MAX_ATTEMPTS
    requires Started(y.timers, id) <= if id < y.s.made then 1 else 0
    ensures Inv(y)
  {
    forall v | v in y.s.pending && v != server ensures EntryOk(y, v) {
      assert EntryOk(x, v);
      if server in x.s.pending { DistinctStates(x, v, server); }
    }
  }

  lemma ClaimKeeps(x: State, server: Server)
    requires Inv(x) && server in x.s.pending
    ensures Inv(Claimed(x, server, x.s.Claim(server, x.now)))
  {
    assert EntryOk(x, server);
    Touched(x, Claimed(x, server, x.s.Claim(server, x.now)), server, x.s.pending[server].id);
  }

  /** A new state, claimed at once: online under its lock. */
  lemma FreshKeeps(x: State, server: Server)
    requires Inv(x)
    ensures Inv(Claimed(x, server, x.s.Fresh(server).Claim(server, x.now)))
  {
    Touched(x, Claimed(x, server, x.s.Fresh(server).Claim(server, x.now)), server, x.s.made);
  }

  lemma DispatchFailsKeeps(x: State, a: Attempt)
    requires Inv(x) && a in x.log
    ensures Inv(Do(x, DispatchFails(a)))
  {
    var server := x.log[a].server;
    if x.s.Current(server, a) {
      assert EntryOk(x, server);
      Touched(x, Do(x, DispatchFails(a)), server, a.id);
    }
  }

  lemma AnswerKeeps(x: State, a: Attempt, res: Result)
    requires Inv(x) && a in x.log
    ensures Inv(Do(x, Answer(a, res)))
  {
    var server := x.log[a].server;
    if x.s.Current(server, a) {
      assert EntryOk(x, server);
      if res != NotConnected || a.n >= MAX_ATTEMPTS { SettledKeeps(x, a, res); } else { BounceKeeps(x, a); }
    }
  }

  lemma SettledKeeps(x: State, a: Attempt, res: Result)
    requires Inv(x) && a in x.log && x.s.Current(x.log[a].server, a) && (res != NotConnected || a.n >= MAX_ATTEMPTS)
    ensures Inv(Do(x, Answer(a, res)))
  {
    assert EntryOk(x, x.log[a].server);
    Touched(x, Do(x, Answer(a, res)), x.log[a].server, a.id);
  }

  /** The current attempt bounced, with budget left. */
  ghost predicate Bounced(x: State, a: Attempt) {
    a in x.log && x.s.Current(x.log[a].server, a) && a.n < MAX_ATTEMPTS && EntryOk(x, x.log[a].server)
  }

  lemma BounceEntry(x: State, a: Attempt)
    requires Bounced(x, a)
    ensures var y := Do(x, Answer(a, NotConnected)); x.log[a].server in y.s.pending && EntryOk(y, x.log[a].server)
  {
    assert Do(x, Answer(a, NotConnected)).log == Close(x.log, a);
  }

  lemma BounceTouches(x: State, a: Attempt)
    requires Bounced(x, a) && HistoryOk(x)
    ensures var y := Do(x, Answer(a, NotConnected));
            && OnlyTouched(x, y, x.log[a].server, a.id) && Started(y.timers, a.id) <= 1 && y.s.made == x.s.made
            && a.id < x.s.made && forall b: Attempt :: b in y.log ==> b in x.log
  {
    assert Do(x, Answer(a, NotConnected)).log == Close(x.log, a);
  }

  lemma BounceKeeps(x: State, a: Attempt)
    requires Inv(x) && a in x.log && x.s.Current(x.log[a].server, a) && a.n < MAX_ATTEMPTS
    ensures Inv(Do(x, Answer(a, NotConnected)))
  {
    var server := x.log[a].server;
    assert EntryOk(x, server) && Bounced(x, a);
    BounceEntry(x, a);
    BounceTouches(x, a);
    assert x.s.pending[server].id == a.id;
    hide Do;
    hide EntryOk;
    hide OnlyTouched;
    hide Bounced;
    Touched(x, Do(x, Answer(a, NotConnected)), server, a.id);
  }

  lemma OnlineClaims(x: State, server: Server, delay: nat)
    ensures var later := x.(now := x.now + delay);
            Do(x, Online(server, delay)) ==
            if server !in x.s.pending || x.now > x.s.pending[server].inFlightUntil
            then Claimed(later, server, later.s.Fresh(server).Claim(server, later.now))
            else Claimed(later, server, later.s.Claim(server, later.now))
  {
  }

  lemma OnlineKeeps(x: State, server: Server, delay: nat)
    requires Inv(x)
    ensures Inv(Do(x, Online(server, delay)))
  {
    var later := x.(now := x.now + delay);
    Rest(x, later);
    OnlineClaims(x, server, delay);
    hide *;
    if server !in x.s.pending || x.now > x.s.pending[server].inFlightUntil {
      FreshKeeps(later, server);
    } else {
      ClaimKeeps(later, server);
    }
  }

  lemma InvStep(x: State, e: Step)
    requires Inv(x) && Enabled(x, e)
    ensures Inv(Do(x, e))
  {
    match e
    case Online(server, delay) => OnlineKeeps(x, server, delay);
    case Heartbeat(server) => if server in x.s.pending { ClaimKeeps(x, server); }
    case DispatchFails(a) => DispatchFailsKeeps(x, a);
    case Answer(a, res) => AnswerKeeps(x, a, res);
    case Tick(_) => Rest(x, Do(x, e));
    case Purge(server) => Rest(x, Do(x, e));
  }

  lemma Rest(x: State, y: State)
    requires Inv(x) && y.log == x.log && y.timers == x.timers && y.s.made == x.s.made
    requires forall v :: v in y.s.pending ==> v in x.s.pending && y.s.pending[v] == x.s.pending[v]
    ensures Inv(y)
  {
    forall v | v in y.s.pending ensures EntryOk(y, v) { assert EntryOk(x, v); }
  }

  /** Every live window is that of its server's current attempt. */
  ghost predicate OneWindow(x: State) { forall a :: Live(x, a) ==> Current(x, a) }

  /** A purge of a server none of whose windows is live. */
  ghost predicate Careful(x: State, e: Step) {
    e.Purge? ==> forall a :: Live(x, a) ==> x.log[a].server != e.server
  }

  /** From x to y at most one attempt was added, and it is current; an old one became current
      never, and stopped being so only when no longer in flight. */
  ghost predicate Added(x: State, y: State) {
    && x.now <= y.now
    && (forall a :: a in x.log ==> a in y.log && y.log[a] == x.log[a])
    && (forall a :: a in y.log && a !in x.log ==> Current(y, a))
    && (forall a :: a in x.log && Current(y, a) ==> Current(x, a))
    && (forall a :: a in x.log && Current(x, a) && Live(y, a) ==> Current(y, a))
  }

  lemma ClaimAdds(x: State, server: Server)
    requires Inv(x) && server in x.s.pending
    ensures Added(x, Claimed(x, server, x.s.Claim(server, x.now)))
  {
    assert EntryOk(x, server);
  }

  lemma FreshAdds(x: State, server: Server)
    requires Inv(x) && (server in x.s.pending ==> x.now > x.s.pending[server].inFlightUntil)
    ensures Added(x, Claimed(x, server, x.s.Fresh(server).Claim(server, x.now)))
  {
    if server in x.s.pending { assert EntryOk(x, server); }
  }

  lemma ClaimingAdds(x: State, e: Step)
    requires Inv(x) && (e.Online? || e.Heartbeat?)
    ensures Added(x, Do(x, e))
  {
    match e
    case Online(server, delay) =>
      var later := x.(now := x.now + delay);
      Rest(x, later);
      OnlineClaims(x, server, delay);
      hide Inv;
      hide Do;
      if server !in x.s.pending || x.now > x.s.pending[server].inFlightUntil {
        FreshAdds(later, server);
      } else {
        ClaimAdds(later, server);
      }
    case Heartbeat(server) => if server in x.s.pending { ClaimAdds(x, server); }
  }

  lemma OneWindowClaims(x: State, e: Step)
    requires Inv(x) && OneWindow(x) && Enabled(x, e) && (e.Online? || e.Heartbeat?)
    ensures OneWindow(Do(x, e))
  {
    var y := Do(x, e);
    ClaimingAdds(x, e);
    hide Do;
    hide Inv;
    forall a | Live(y, a) ensures Current(y, a) { if a in x.log { assert Live(x, a); } }
  }

  lemma OneWindowSettles(x: State, e: Step)
    requires OneWindow(x) && Enabled(x, e) && (e.Answer? || e.DispatchFails?)
    ensures OneWindow(Do(x, e))
  {
    var y := Do(x, e);
    forall a | Live(y, a) ensures Current(y, a) { assert Live(x, a); }
  }

  lemma OneWindowStep(x: State, e: Step)
    requires Inv(x) && OneWindow(x) && Enabled(x, e) && Careful(x, e)
    ensures OneWindow(Do(x, e))
  {
    var y := Do(x, e);
    match e
    case Tick(_) => forall a | Live(y, a) ensures Current(y, a) { assert Live(x, a); }
    case Purge(_) => forall a | Live(y, a) ensures Current(y, a) { assert Live(x, a); }
    case Online(_, _) => OneWindowClaims(x, e);
    case Heartbeat(_) => OneWindowClaims(x, e);
    case _ => OneWindowSettles(x, e);
  }

  ghost predicate RunOf(states: seq<State>, steps: seq<Step>) {
    && |states| == |steps| + 1 && Init(states[0])
    && forall i :: 0 <= i < |steps| ==> Enabled(states[i], steps[i]) && states[i + 1] == Do(states[i], steps[i])
  }

  lemma {:induction false} EveryState(states: seq<State>, steps: seq<Step>, i: nat)
    requires RunOf(states, steps) && i < |states|
    ensures Inv(states[i])
  {
    if i > 0 {
      EveryState(states, steps, i - 1);
      InvStep(states[i - 1], steps[i - 1]);
    }
  }

  /** Every pending sync has made one to three attempts, no state ever makes more, and none
      starts a second retry timer. */
  lemma BudgetHolds(states: seq<State>, steps: seq<Step>, i: nat)
    requires RunOf(states, steps) && i < |states|
    ensures forall v :: v in states[i].s.pending ==> 1 <= states[i].s.pending[v].attempts <= 3
    ensures forall a :: a in states[i].log ==> 1 <= a.n <= 3
    ensures forall id: nat :: Started(states[i].timers, id) <= 1
  {
    EveryState(states, steps, i);
  }

  lemma {:induction false} OneWindowThroughout(states: seq<State>, steps: seq<Step>, i: nat)
    requires RunOf(states, steps) && i < |states|
    requires forall k :: 0 <= k < i ==> Careful(states[k], steps[k])
    ensures OneWindow(states[i])
  {
    if i > 0 {
      OneWindowThroughout(states, steps, i - 1);
      EveryState(states, steps, i - 1);
      OneWindowStep(states[i - 1], steps[i - 1]);
    }
  }

  /** A server never has two attempts in flight, as long as no purge drops a live one. */
  lemma NeverTwoInFlight(states: seq<State>, steps: seq<Step>, i: nat, a: Attempt, b: Attempt)
    requires RunOf(states, steps) && i < |states|
    requires forall k :: 0 <= k < i ==> Careful(states[k], steps[k])
    requires Live(states[i], a) && Live(states[i], b) && states[i].log[a].server == states[i].log[b].server
    ensures a == b
  {
    OneWindowThroughout(states, steps, i);
  }

  ghost predicate TwoInFlight(x: State, server: Server) {
    exists a, b :: a != b && Live(x, a) && Live(x, b) && x.log[a].server == x.log[b].server == server
  }

  /** A purge and, after a while, its online leave two attempts in flight exactly when one was in
      flight before and still is at the claim. */
  lemma PurgeOpensSecondWindow(x: State, server: Server, wait: nat, delay: nat)
    requires Inv(x) && OneWindow(x)
    ensures TwoInFlight(Do(Do(Do(x, Purge(server)), Tick(wait)), Online(server, delay)), server) <==>
            exists a :: Live(x.(now := x.now + wait + delay), a) && x.log[a].server == server
  {
    var later := x.(now := x.now + wait + delay);
    var y := Do(Do(Do(x, Purge(server)), Tick(wait)), Online(server, delay));
    var b := Attempt(x.s.made, 1);
    assert Live(y, b) && y.log[b].server == server && b !in x.log;
    if a :| Live(later, a) && x.log[a].server == server {
      assert Live(y, a) && a != b && y.log[a].server == server;
    }
    if a, c :| a != c && Live(y, a) && Live(y, c) && y.log[a].server == y.log[c].server == server {
      var d := if a == b then c else a;
      assert Live(later, d) && Live(x, d);
    }
  }

  /** It does happen: a run that purges a server whose attempt is in flight. */
  lemma SecondWindowReached(server: Server)
    ensures exists states, steps :: RunOf(states, steps) && |steps| == 3 && steps[1] == Purge(server)
                                    && TwoInFlight(states[3], server)
  {
    var x0 := State(Syncs(map[], 0), 1, map[], map[]);
    var x1 := Do(x0, Online(server, 0));
    var x2 := Do(x1, Purge(server));
    var x3 := Do(x2, Online(server, 0));
    var a, b := Attempt(0, 1), Attempt(1, 1);
    assert Live(x3, a) && Live(x3, b);
    var states, steps := [x0, x1, x2, x3], [Online(server, 0), Purge(server), Online(server, 0)];
    assert RunOf(states, steps) && TwoInFlight(states[3], server);
  }

  // ---- How many attempts a server may have in flight ----

  ghost function LiveOf(x: State, server: Server): set<Attempt> {
    set a | a in x.log && Live(x, a) && x.log[a].server == server
  }

  /** The server's attempts in flight that a purge has dropped. */
  ghost function Stray(x: State, server: Server): set<Attempt> {
    set a | a in x.log && Live(x, a) && x.log[a].server == server && !Current(x, a)
  }

  /** A purge of the server while its current attempt is in flight. */
  ghost predicate DropsLive(x: State, e: Step, server: Server) {
    e == Purge(server) && exists a :: Live(x, a) && x.log[a].server == server && Current(x, a)
  }

  ghost function Drops(states: seq<State>, steps: seq<Step>, server: Server, i: nat): nat
    requires i <= |steps| < |states|
  {
    if i == 0 then 0 else
      Drops(states, steps, server, i - 1) + if DropsLive(states[i - 1], steps[i - 1], server) then 1 else 0
  }

  lemma OneCurrent(x: State, server: Server, a: Attempt, b: Attempt)
    requires a in x.log && b in x.log && x.log[a].server == x.log[b].server == server && Current(x, a) && Current(x, b)
    ensures a == b
  {
  }

  lemma StrayAfterClaim(x: State, e: Step, server: Server)
    requires Inv(x) && Enabled(x, e) && (e.Online? || e.Heartbeat?)
    ensures Stray(Do(x, e), server) <= Stray(x, server)
  {
    var y := Do(x, e);
    ClaimingAdds(x, e);
    hide Do;
    hide Inv;
    forall a | a in Stray(y, server) ensures a in Stray(x, server) { assert a in x.log && Live(x, a); }
  }

  lemma StrayAfterOther(x: State, e: Step, server: Server)
    requires Enabled(x, e) && (e.Tick? || e.Answer? || e.DispatchFails? || (e.Purge? && e.server != server))
    ensures Stray(Do(x, e), server) <= Stray(x, server)
  {
    var y := Do(x, e);
    forall a | a in Stray(y, server) ensures a in Stray(x, server) { assert Live(x, a); }
  }

  lemma StrayAfterPurge(x: State, server: Server)
    ensures |Stray(Do(x, Purge(server)), server)|
            <= |Stray(x, server)| + if DropsLive(x, Purge(server), server) then 1 else 0
  {
    var y := Do(x, Purge(server));
    if a :| Live(x, a) && x.log[a].server == server && Current(x, a) {
      forall b | b in Stray(y, server) ensures b in Stray(x, server) + {a} {
        if Current(x, b) { OneCurrent(x, server, a, b); }
      }
      Subset(Stray(y, server), Stray(x, server) + {a});
    } else {
      Subset(Stray(y, server), Stray(x, server));
    }
  }

  lemma {:induction false} Subset<T>(a: set<T>, b: set<T>)
    requires a <= b
    ensures |a| <= |b|
  {
    if a != {} {
      var x :| x in a;
      Subset(a - {x}, b - {x});
    }
  }

  lemma {:induction false} StrayBound(states: seq<State>, steps: seq<Step>, server: Server, i: nat)
    requires RunOf(states, steps) && i <= |steps|
    ensures |Stray(states[i], server)| <= Drops(states, steps, server, i)
  {
    if i == 0 {
      assert Stray(states[0], server) == {};
    } else {
      var x, e := states[i - 1], steps[i - 1];
      StrayBound(states, steps, server, i - 1);
      EveryState(states, steps, i - 1);
      assert Enabled(x, e) && states[i] == Do(x, e);
      hide Do;
      hide Inv;
      hide Stray;
      if e == Purge(server) {
        StrayAfterPurge(x, server);
      } else {
        if e.Online? || e.Heartbeat? { StrayAfterClaim(x, e, server); } else { StrayAfterOther(x, e, server); }
        Subset(Stray(states[i], server), Stray(x, server));
      }
    }
  }

  /** Over every run, a server's attempts in flight are at most one more than the purges that
      dropped one in flight. */
  lemma InFlightBound(states: seq<State>, steps: seq<Step>, server: Server, i: nat)
    requires RunOf(states, steps) && i <= |steps|
    ensures |LiveOf(states[i], server)| <= 1 + Drops(states, steps, server, i)
  {
    var x := states[i];
    StrayBound(states, steps, server, i);
    if a :| a in LiveOf(x, server) && Current(x, a) {
      forall b | b in LiveOf(x, server) ensures b in Stray(x, server) + {a} {
        if Current(x, b) { OneCurrent(x, server, a, b); }
      }
      Subset(LiveOf(x, server), Stray(x, server) + {a});
    } else {
      Subset(LiveOf(x, server), Stray(x, server));
    }
  }

  /** And that many there can be: each purge at once followed by its online adds one. */
  lemma {:induction false} InFlightReached(server: Server, n: nat) returns (states: seq<State>, steps: seq<Step>)
    ensures RunOf(states, steps) && Drops(states, steps, server, |steps|) == n
    ensures |LiveOf(states[|steps|], server)| == n + 1
    ensures Inv(states[|steps|]) && exists a :: a in LiveOf(states[|steps|], server) && Current(states[|steps|], a)
  {
    if n == 0 {
      var x := State(Syncs(map[], 0), 1, map[], map[]);
      assert RunOf([x], []);
      states, steps := OnlineAfter([x], [], server);
    } else {
      states, steps := InFlightReached(server, n - 1);
      var x := states[|steps|];
      var y := Do(x, Purge(server));
      var more, longer := states + [y], steps + [Purge(server)];
      assert RunOf(more, longer);
      DropsPrefix(states, steps, more, longer, server, |steps|);
      assert LiveOf(y, server) == LiveOf(x, server);
      EveryState(more, longer, |longer|);
      states, steps := OnlineAfter(more, longer, server);
    }
  }

  lemma {:induction false} DropsPrefix(states: seq<State>, steps: seq<Step>, more: seq<State>, longer: seq<Step>,
                                       server: Server, i: nat)
    requires i <= |steps| < |states| && |longer| < |more| && states <= more && steps <= longer
    ensures Drops(more, longer, server, i) == Drops(states, steps, server, i)
  {
    if i > 0 { DropsPrefix(states, steps, more, longer, server, i - 1); }
  }

  /** One more online of a server without a pending sync. */
  lemma OnlineAfter(states: seq<State>, steps: seq<Step>, server: Server) returns (more: seq<State>, longer: seq<Step>)
    requires RunOf(states, steps) && server !in states[|steps|].s.pending
    ensures RunOf(more, longer) && Drops(more, longer, server, |longer|) == Drops(states, steps, server, |steps|)
    ensures |LiveOf(more[|longer|], server)| == |LiveOf(states[|steps|], server)| + 1
    ensures Inv(more[|longer|]) && exists a :: a in LiveOf(more[|longer|], server) && Current(more[|longer|], a)
  {
    var x := states[|steps|];
    var e := Online(server, 0);
    var y := Do(x, e);
    more, longer := states + [y], steps + [e];
    assert RunOf(more, longer);
    DropsPrefix(states, steps, more, longer, server, |steps|);
    EveryState(states, steps, |steps|);
    EveryState(more, longer, |longer|);
    var b := Attempt(x.s.made, 1);
    assert b !in x.log && Live(y, b) && y.log[b].server == server && Current(y, b);
    assert LiveOf(y, server) == LiveOf(x, server) + {b};
  }

  // ---- What each step does ----

  /** Nothing but server's pending sync differs. */
  ghost predicate SameElsewhere(x: State, y: State, server: Server) {
    && (forall v :: v != server ==> (v in y.s.pending <==> v in x.s.pending))
    && (forall v :: v != server && v in x.s.pending ==> y.s.pending[v] == x.s.pending[v])
  }

  /** A result settles its current attempt's sync, success or error, unless the agent was not
      connected with one or two attempts made: then the sync stays, its window closed, and the one
      retry timer is started if none was. */
  lemma ResultSettles(x: State, a: Attempt, res: Result)
    requires Inv(x) && a in x.log && Current(x, a)
    ensures var y, server := Do(x, Answer(a, res)), x.log[a].server;
            && (server in y.s.pending <==> res == NotConnected && a.n < 3)
            && (server in y.s.pending ==>
                  var e := y.s.pending[server];
                  e.id == a.id && e.attempts == a.n && e.retried && e.inFlightUntil < x.now)
            && !y.log[a].open && SameElsewhere(x, y, server)
            && Started(y.timers, a.id) ==
               Started(x.timers, a.id) + (if server in y.s.pending && Started(x.timers, a.id) == 0 then 1 else 0)
            && forall id: nat :: id != a.id ==> Started(y.timers, id) == Started(x.timers, id)
  {
    assert EntryOk(x, x.log[a].server);
  }

  /** A dispatch error closes the window of its current attempt and leaves the sync pending. */
  lemma DispatchErrorReopens(x: State, a: Attempt)
    requires Inv(x) && a in x.log && Current(x, a)
    ensures var y, server := Do(x, DispatchFails(a)), x.log[a].server;
            && server in y.s.pending && y.s.pending[server] == x.s.pending[server].(inFlightUntil := 0)
            && !y.log[a].open && SameElsewhere(x, y, server) && y.timers == x.timers
  {
  }

  /** The step starts this attempt. */
  ghost predicate Starts(x: State, e: Step, a: Attempt)
    requires Enabled(x, e)
  {
    a !in x.log && a in Do(x, e).log
  }

  /** A heartbeat, or the retry timer, starts the next attempt, with a window of a minute, exactly
      for a pending sync whose window has passed and that made fewer than three. */
  lemma HeartbeatStarts(x: State, server: Server, a: Attempt)
    requires Inv(x)
    ensures Starts(x, Heartbeat(server), a) <==>
            server in x.s.pending && x.now >= x.s.pending[server].inFlightUntil && x.s.pending[server].attempts < 3
            && a == Attempt(x.s.pending[server].id, x.s.pending[server].attempts + 1)
    ensures Starts(x, Heartbeat(server), a) ==>
            var y := Do(x, Heartbeat(server));
            y.log[a] == Window(server, x.now + 60, true) && Current(y, a) && SameElsewhere(x, y, server)
  {
    if server in x.s.pending { assert EntryOk(x, server); }
  }

  /** A connect event starts a new sync at once, unless one is pending whose window has not passed:
      then it starts that one's next attempt, if the window ends by the claim and fewer than three
      were made. */
  lemma OnlineStarts(x: State, server: Server, delay: nat, a: Attempt)
    requires Inv(x)
    ensures Starts(x, Online(server, delay), a) <==>
            if server !in x.s.pending || x.now > x.s.pending[server].inFlightUntil then a == Attempt(x.s.made, 1)
            else x.now + delay >= x.s.pending[server].inFlightUntil && x.s.pending[server].attempts < 3
                 && a == Attempt(x.s.pending[server].id, x.s.pending[server].attempts + 1)
    ensures Starts(x, Online(server, delay), a) ==>
            var y := Do(x, Online(server, delay));
            y.log[a] == Window(server, x.now + delay + 60, true) && Current(y, a) && SameElsewhere(x, y, server)
  {
    if server in x.s.pending { assert EntryOk(x, server); }
  }

  /** Nothing else starts an attempt. */
  lemma OnlyThoseStart(x: State, e: Step, a: Attempt)
    requires Enabled(x, e) && !e.Online? && !e.Heartbeat?
    ensures !Starts(x, e, a)
  {
  }

  lemma StaysSettled(x: State, e: Step, server: Server)
    requires Enabled(x, e) && server !in x.s.pending && !(e.Online? && e.server == server)
    ensures server !in Do(x, e).s.pending
    ensures forall a :: Starts(x, e, a) ==> Do(x, e).log[a].server != server
  {
  }

  /** Once a sync is settled, by a success, by an error or for good, its server starts no attempt
      until it comes online again. */
  lemma {:induction false} SettledStartsNothing(states: seq<State>, steps: seq<Step>, i: nat, j: nat, a: Attempt,
                                                res: Result)
    requires RunOf(states, steps) && i < j <= |steps| && steps[i] == Answer(a, res) && Current(states[i], a)
    requires res == Success || res == OtherError || a.n == 3
    requires forall k :: i < k < j ==> !(steps[k].Online? && steps[k].server == states[i].log[a].server)
    ensures var server := states[i].log[a].server;
            && server !in states[j].s.pending
            && forall b :: b in states[j].log && b !in states[i].log ==> states[j].log[b].server != server
  {
    var server := states[i].log[a].server;
    EveryState(states, steps, j - 1);
    assert Enabled(states[j - 1], steps[j - 1]) && states[j] == Do(states[j - 1], steps[j - 1]);
    if j == i + 1 {
      ResultSettles(states[i], a, res);
    } else {
      SettledStartsNothing(states, steps, i, j - 1, a, res);
      StaysSettled(states[j - 1], steps[j - 1], server);
      LogKeeps(states[j - 1], steps[j - 1]);
    }
  }

  /** An attempt once made stays its server's. */
  lemma LogKeeps(x: State, e: Step)
    requires Inv(x) && Enabled(x, e)
    ensures forall b :: b in x.log ==> b in Do(x, e).log && Do(x, e).log[b].server == x.log[b].server
    ensures forall b :: b in Do(x, e).log && b !in x.log ==> Starts(x, e, b)
  {
    if e.Online? || e.Heartbeat? { ClaimingAdds(x, e); }
  }

  // ---- Late results ----

  /** A result or a dispatch error of an attempt that is not current changes nothing. */
  lemma LateChangesNothing(x: State, e: Step)
    requires Enabled(x, e) && (e.Answer? || e.DispatchFails?) && !Current(x, e.a)
    ensures Do(x, e) == x
  {
  }

  lemma SupersededStep(x: State, e: Step, a: Attempt)
    requires Inv(x) && Enabled(x, e) && a in x.log && !Current(x, a)
    ensures a in Do(x, e).log && !Current(Do(x, e), a)
  {
    if e.Online? || e.Heartbeat? {
      ClaimingAdds(x, e);
      hide Do;
      hide Inv;
    }
  }

  /** An attempt once superseded, settled or purged stays so, even when a later state of the
      server makes an attempt of the same number: its result never counts again. */
  lemma {:induction false} SupersededForever(states: seq<State>, steps: seq<Step>, i: nat, j: nat, a: Attempt)
    requires RunOf(states, steps) && i <= j < |states|
    requires a in states[i].log && !Current(states[i], a)
    ensures a in states[j].log && !Current(states[j], a)
    ensures j < |steps| && (steps[j].Answer? || steps[j].DispatchFails?) && steps[j].a == a ==>
            states[j + 1] == states[j]
  {
    if i < j {
      SupersededForever(states, steps, i, j - 1, a);
      EveryState(states, steps, j - 1);
      SupersededStep(states[j - 1], steps[j - 1], a);
    }
    if j < |steps| && (steps[j].Answer? || steps[j].DispatchFails?) && steps[j].a == a {
      LateChangesNothing(states[j], steps[j]);
    }
  }
}
