/** internal/app/agent/processes.go: one read of the processes at a time, shared by every
    call that waits for it, and each call's own copy with the apps named. */
module ProcessLists {
  import opened Common

  // ---- Naming the apps ----

  datatype Process = Process(containerID: string, appID: string, pid: int)

  datatype Group = Group(containerID: string, appID: string, title: string, io: int)

  datatype Container = Container(id: string, name: string)

  datatype App = App(appID: string, containers: seq<Container>)

  datatype Owner = Owner(appID: string, name: string)

  type Owners = map<string, Owner>

  function OwnersOf(appID: string, cs: seq<Container>): Owners {
    if cs == [] then map[] else
      OwnersOf(appID, cs[..|cs| - 1])[cs[|cs| - 1].id := Owner(appID, cs[|cs| - 1].name)]
  }

  /** Who owns each container: the last app listing it. */
  function AllOwners(apps: seq<App>): Owners {
    if apps == [] then map[] else
      AllOwners(apps[..|apps| - 1]) + OwnersOf(apps[|apps| - 1].appID, apps[|apps| - 1].containers)
  }

  function Lookup(owners: Owners, id: string): Owner { if id in owners then owners[id] else Owner("", "") }

  function Named(p: Process, owners: Owners): Process {
    if p.containerID == "" then p else p.(appID := Lookup(owners, p.containerID).appID)
  }

  function NamedGroup(g: Group, owners: Owners): Group {
    if g.containerID == "" then g else
      g.(appID := Lookup(owners, g.containerID).appID, title := Lookup(owners, g.containerID).name)
  }

  /** Container j of app i has this id. */
  ghost predicate Lists(apps: seq<App>, i: nat, j: nat, id: string) {
    i < |apps| && j < |apps[i].containers| && apps[i].containers[j].id == id
  }

  /** And no container listed after it, in this app or a later one, has. */
  ghost predicate ListsLast(apps: seq<App>, i: nat, j: nat, id: string) {
    Lists(apps, i, j, id) && forall m: nat, n: nat :: Lists(apps, m, n, id) ==> m < i || (m == i && n <= j)
  }

  lemma {:induction false} OwnersOfLast(appID: string, cs: seq<Container>, id: string)
    ensures id !in OwnersOf(appID, cs) ==> forall j :: 0 <= j < |cs| ==> cs[j].id != id
    ensures id in OwnersOf(appID, cs) ==>
              exists j :: 0 <= j < |cs| && cs[j].id == id && (forall n :: j < n < |cs| ==> cs[n].id != id)
                          && OwnersOf(appID, cs)[id] == Owner(appID, cs[j].name)
  {
    if cs != [] { OwnersOfLast(appID, cs[..|cs| - 1], id); }
  }

  /** A container belongs to the last app that lists it, under the name it last has there. */
  lemma {:induction false} LastListingOwns(apps: seq<App>, id: string)
    ensures id !in AllOwners(apps) ==> forall i: nat, j: nat :: !Lists(apps, i, j, id)
    ensures id in AllOwners(apps) ==>
              exists i: nat, j: nat :: ListsLast(apps, i, j, id)
                && AllOwners(apps)[id] == Owner(apps[i].appID, apps[i].containers[j].name)
  {
    if apps != [] {
      var init, a := apps[..|apps| - 1], apps[|apps| - 1];
      OwnersOfLast(a.appID, a.containers, id);
      LastListingOwns(init, id);
      assert forall i: nat, j: nat :: i < |init| ==> (Lists(init, i, j, id) <==> Lists(apps, i, j, id));
      if id in OwnersOf(a.appID, a.containers) {
        var j :| 0 <= j < |a.containers| && a.containers[j].id == id
                 && (forall n :: j < n < |a.containers| ==> a.containers[n].id != id)
                 && OwnersOf(a.appID, a.containers)[id] == Owner(a.appID, a.containers[j].name);
        assert ListsLast(apps, |init|, j, id);
      } else if id in AllOwners(init) {
        var i: nat, j: nat :| ListsLast(init, i, j, id)
                 && AllOwners(init)[id] == Owner(init[i].appID, init[i].containers[j].name);
        assert ListsLast(apps, i, j, id);
      }
    }
  }

  /** A process of a container is given the app that lists the container last, no app when none
      lists it; one outside any container is left as it is. */
  lemma NamedIs(p: Process, apps: seq<App>)
    ensures var q := Named(p, AllOwners(apps));
            && q.pid == p.pid && q.containerID == p.containerID && (p.containerID == "" ==> q == p)
            && (p.containerID != "" ==>
                  && ((forall i: nat, j: nat :: !Lists(apps, i, j, p.containerID)) ==> q.appID == "")
                  && (forall i: nat, j: nat :: ListsLast(apps, i, j, p.containerID) ==> q.appID == apps[i].appID))
  {
    OwnerIs(apps, p.containerID);
  }

  /** A container's group is given the same app and is titled with the name it lists the container
      under. */
  lemma NamedGroupIs(g: Group, apps: seq<App>)
    ensures var q := NamedGroup(g, AllOwners(apps));
            && q.io == g.io && q.containerID == g.containerID && (g.containerID == "" ==> q == g)
            && (g.containerID != "" ==>
                  && ((forall i: nat, j: nat :: !Lists(apps, i, j, g.containerID)) ==> q.appID == q.title == "")
                  && (forall i: nat, j: nat :: ListsLast(apps, i, j, g.containerID) ==>
                        q.appID == apps[i].appID && q.title == apps[i].containers[j].name))
  {
    OwnerIs(apps, g.containerID);
  }

  lemma OwnerIs(apps: seq<App>, id: string)
    ensures (forall i: nat, j: nat :: !Lists(apps, i, j, id)) ==> Lookup(AllOwners(apps), id) == Owner("", "")
    ensures forall i: nat, j: nat :: ListsLast(apps, i, j, id) ==>
              Lookup(AllOwners(apps), id) == Owner(apps[i].appID, apps[i].containers[j].name)
  {
    LastListingOwns(apps, id);
    if id in AllOwners(apps) {
      var m: nat, n: nat :| ListsLast(apps, m, n, id)
               && AllOwners(apps)[id] == Owner(apps[m].appID, apps[m].containers[n].name);
      forall i: nat, j: nat | ListsLast(apps, i, j, id) ensures i == m && j == n {
        assert Lists(apps, i, j, id) && Lists(apps, m, n, id);
      }
    } else {
      forall i: nat, j: nat ensures !ListsLast(apps, i, j, id) { assert !Lists(apps, i, j, id); }
    }
  }

  method BuildOwners(apps: seq<App>) returns (owners: Owners)
    ensures owners == AllOwners(apps)
    ensures forall i: nat, j: nat, id :: ListsLast(apps, i, j, id) ==>
              id in owners && owners[id] == Owner(apps[i].appID, apps[i].containers[j].name)
    ensures forall id :: id in owners ==> exists i: nat, j: nat :: Lists(apps, i, j, id)
  {
    forall id, i: nat, j: nat | ListsLast(apps, i, j, id)
      ensures id in AllOwners(apps) && AllOwners(apps)[id] == Owner(apps[i].appID, apps[i].containers[j].name)
    {
      LastListingOwns(apps, id);
      var m: nat, n: nat :| ListsLast(apps, m, n, id)
               && AllOwners(apps)[id] == Owner(apps[m].appID, apps[m].containers[n].name);
      assert Lists(apps, i, j, id) && Lists(apps, m, n, id);
    }
    forall id | id in AllOwners(apps) ensures exists i: nat, j: nat :: Lists(apps, i, j, id) {
      LastListingOwns(apps, id);
    }
    owners := map[];
    for i := 0 to |apps|
      invariant owners == AllOwners(apps[..i])
    {
      var a := apps[i];
      ghost var was := owners;
      for j := 0 to |a.containers|
        invariant owners == was + OwnersOf(a.appID, a.containers[..j])
      {
        assert a.containers[..j + 1][..j] == a.containers[..j];
        owners := owners[a.containers[j].id := Owner(a.appID, a.containers[j].name)];
      }
      assert a.containers[..|a.containers|] == a.containers;
      assert apps[..i + 1][..i] == apps[..i];
    }
    assert apps[..|apps|] == apps;
  }

  /** A waiter's answer: copies of the read's rows, relabelled in place. The read's rows, which
      every other waiter copies too, are not written. */
  method NameApps(processes: array<Process>, groups: array<Group>, apps: seq<App>)
    returns (ps: array<Process>, gs: array<Group>)
    ensures fresh(ps) && fresh(gs)
    ensures ps[..] ==
            seq(processes.Length,
                i requires 0 <= i < processes.Length reads processes => Named(processes[i], AllOwners(apps)))
    ensures gs[..] ==
            seq(groups.Length,
                i requires 0 <= i < groups.Length reads groups => NamedGroup(groups[i], AllOwners(apps)))
  {
    ps := new Process[processes.Length](i requires 0 <= i < processes.Length reads processes => processes[i]);
    gs := new Group[groups.Length](i requires 0 <= i < groups.Length reads groups => groups[i]);
    var owners := BuildOwners(apps);
    for i := 0 to ps.Length
      invariant forall k :: 0 <= k < ps.Length ==> ps[k] == if k < i then Named(processes[k], owners) else processes[k]
      invariant forall k :: 0 <= k < gs.Length ==> gs[k] == groups[k]
    {
      if ps[i].containerID != "" { ps[i] := ps[i].(appID := Lookup(owners, ps[i].containerID).appID); }
    }
    for i := 0 to gs.Length
      invariant forall k :: 0 <= k < gs.Length ==> gs[k] == if k < i then NamedGroup(groups[k], owners) else groups[k]
      invariant forall k :: 0 <= k < ps.Length ==> ps[k] == Named(processes[k], owners)
    {
      if gs[i].containerID != "" {
        var c := Lookup(owners, gs[i].containerID);
        gs[i] := gs[i].(appID := c.appID, title := c.name);
      }
    }
  }

  // ---- Single flight ----

  datatype Response = Response(processes: seq<Process>, groups: seq<Group>)

  datatype Result = Read(resp: Response) | ReadError

  /** A read's goroutine: src.List running, its result written, the flight field cleared, the
      done channel closed. */
  datatype Phase = Reading | Wrote(r: Result) | Cleared(r: Result) | Closed(r: Result)

  datatype Call = Waiting(flight: nat) | Answered(flight: nat, r: Result) | TimedOut

  datatype State = State(flight: Option<nat>, flights: seq<Phase>, calls: map<nat, Call>)

  const INIT := State(None, [], map[])

  datatype Step =
    | Join(c: nat)                       // List calls read
    | ReadEnds(i: nat, r: Result)
    | Clear(i: nat)
    | Close(i: nat)
    | Receive(c: nat)                    // the done channel is closed: f.resp and f.err are read
    | TimeOut(c: nat)

  predicate Enabled(s: State, e: Step) {
    match e
    case Join(c) => c !in s.calls
    case ReadEnds(i, _) => i < |s.flights| && s.flights[i].Reading?
    case Clear(i) => i < |s.flights| && s.flights[i].Wrote?
    case Close(i) => i < |s.flights| && s.flights[i].Cleared?
    case Receive(c) =>
      c in s.calls && s.calls[c].Waiting? && s.calls[c].flight < |s.flights| && s.flights[s.calls[c].flight].Closed?
    case TimeOut(c) => c in s.calls && s.calls[c].Waiting?
  }

  function Do(s: State, e: Step): State
    requires Enabled(s, e)
  {
    match e
    case Join(c) =>
      (match s.flight
       case Some(i) => s.(calls := s.calls[c := Waiting(i)])
       case None => State(Some(|s.flights|), s.flights + [Reading], s.calls[c := Waiting(|s.flights|)]))
    case ReadEnds(i, r) => s.(flights := s.flights[i := Wrote(r)])
    case Clear(i) => s.(flight := None, flights := s.flights[i := Cleared(s.flights[i].r)])
    case Close(i) => s.(flights := s.flights[i := Closed(s.flights[i].r)])
    case Receive(c) => s.(calls := s.calls[c := Answered(s.calls[c].flight, s.flights[s.calls[c].flight].r)])
    case TimeOut(c) => s.(calls := s.calls[c := TimedOut])
  }

  predicate Running(p: Phase) { p.Reading? || p.Wrote? }

  ghost predicate Inv(s: State) {
    && (forall i :: 0 <= i < |s.flights| && Running(s.flights[i]) ==> s.flight == Some(i))
    && (s.flight.Some? ==> s.flight.value < |s.flights| && Running(s.flights[s.flight.value]))
    && (forall c :: c in s.calls && s.calls[c].Waiting? ==> s.calls[c].flight < |s.flights|)
    && (forall c :: c in s.calls && s.calls[c].Answered? ==>
          s.calls[c].flight < |s.flights| && s.flights[s.calls[c].flight] == Closed(s.calls[c].r))
  }

  lemma InvStep(s: State, e: Step)
    requires Inv(s) && Enabled(s, e)
    ensures Inv(Do(s, e))
  {
  }

  ghost predicate RunOf(states: seq<State>, steps: seq<Step>) {
    && |states| == |steps| + 1 && states[0] == INIT
    && forall i :: 0 <= i < |steps| ==> Enabled(states[i], steps[i]) && states[i + 1] == Do(states[i], steps[i])
  }

  lemma {:induction false} EveryState(states: seq<State>, steps: seq<Step>, i: nat)
    requires RunOf(states, steps) && i < |states|
    ensures Inv(states[i])
  {
    if i > 0 {
      EveryState(states, steps, i - 1);
      InvStep(states[i - 1], steps[i - 1]);
    }
  }

  /** At most one src.List runs at a time, and flight points to it while it does. */
  lemma OneReadAtATime(states: seq<State>, steps: seq<Step>, n: nat, i: nat, j: nat)
    requires RunOf(states, steps) && n < |states|
    requires i < |states[n].flights| && j < |states[n].flights|
    requires states[n].flights[i].Reading? && states[n].flights[j].Reading?
    ensures i == j && states[n].flight == Some(i)
  {
    EveryState(states, steps, n);
  }

  /** What a call waits for, or was answered from. */
  function FlightOf(c: Call): Option<nat> {
    match c case Waiting(f) => Some(f) case Answered(f, _) => Some(f) case TimedOut => None
  }

  lemma KeepsFlight(s: State, e: Step, c: nat)
    requires Enabled(s, e) && c in s.calls
    ensures c in Do(s, e).calls
    ensures Do(s, e).calls[c].TimedOut?
            || (FlightOf(Do(s, e).calls[c]) == FlightOf(s.calls[c]) && !s.calls[c].TimedOut?)
  {
  }

  /** A call that is answered gets the result of the very read it joined, whole: the read
      wrote it before closing done, and nothing changes it afterwards. */
  lemma {:induction false} AnsweredFromItsFlight(states: seq<State>, steps: seq<Step>, i: nat, j: nat, c: nat)
    requires RunOf(states, steps) && i < j < |states| && steps[i] == Join(c)
    ensures c in states[j].calls
    ensures !states[j].calls[c].TimedOut? ==> FlightOf(states[j].calls[c]) == states[i + 1].flight
    ensures states[j].calls[c].Answered? ==>
              states[i + 1].flight == Some(states[j].calls[c].flight) && states[j].calls[c].flight < |states[j].flights|
              && states[j].flights[states[j].calls[c].flight] == Closed(states[j].calls[c].r)
  {
    EveryState(states, steps, j);
    if j > i + 1 {
      AnsweredFromItsFlight(states, steps, i, j - 1, c);
      KeepsFlight(states[j - 1], steps[j - 1], c);
    }
  }

  /** While a read runs, a new call joins it instead of starting another. */
  lemma JoinsTheRunningRead(states: seq<State>, steps: seq<Step>, n: nat, i: nat)
    requires RunOf(states, steps) && n < |steps| && steps[n].Join?
    requires i < |states[n].flights| && states[n].flights[i].Reading?
    ensures states[n + 1].flights == states[n].flights && states[n + 1].calls[steps[n].c] == Waiting(i)
  {
    EveryState(states, steps, n);
    assert Enabled(states[n], steps[n]);
  }

  /** A call starts a read exactly when none runs, and joins the one that does. */
  lemma StartsIffNoneRuns(states: seq<State>, steps: seq<Step>, n: nat)
    requires RunOf(states, steps) && n < |steps| && steps[n].Join?
    ensures var s, t := states[n], states[n + 1];
            && steps[n].c in t.calls && t.calls[steps[n].c].Waiting?
            && (t.flights == s.flights + [Reading] <==> forall i :: 0 <= i < |s.flights| ==> !Running(s.flights[i]))
            && (t.flights == s.flights || t.flights == s.flights + [Reading])
            && var f := t.calls[steps[n].c].flight; f < |t.flights| && Running(t.flights[f])
  {
    EveryState(states, steps, n);
    assert Enabled(states[n], steps[n]);
  }
}
