/** internal/infra/bootstrap/varssync.go: the drift push, once per revision. A report that finds
    an agent behind claims the push under the lock; the sync itself runs outside it. */
module VarsSync {
  import opened Common

  type Server = string

  /** A Go map read: 0 for a server never pushed. */
  function Pushed(pushed: map<Server, int>, server: Server): int { if server in pushed then pushed[server] else 0 }

  function ClaimPush(pushed: map<Server, int>, server: Server, dbRev: int): (map<Server, int>, bool) {
    if Pushed(pushed, server) == dbRev then (pushed, false) else (pushed[server := dbRev], true)
  }

  function SyncFailed(pushed: map<Server, int>, server: Server, dbRev: int): map<Server, int> {
    if Pushed(pushed, server) == dbRev then pushed - {server} else pushed
  }

  class DriftPush {
    var pushed: map<Server, int>

    constructor ()
      ensures pushed == map[]
    {
      pushed := map[];
    }

    method Claim(server: Server, dbRev: int) returns (push: bool)
      modifies this
      ensures (pushed, push) == ClaimPush(old(pushed), server, dbRev)
    {
      if (if server in pushed then pushed[server] else 0) == dbRev { return false; }
      pushed := pushed[server := dbRev];
      push := true;
    }

    method Failed(server: Server, dbRev: int)
      modifies this
      ensures pushed == SyncFailed(old(pushed), server, dbRev)
    {
      if (if server in pushed then pushed[server] else 0) == dbRev { pushed := pushed - {server}; }
    }
  }

  /** One locked section: a report of an agent behind dbRev, as ObserveRevision finds it, or a
      failed sync of dbRev. */
  datatype Step = Report(server: Server, agentRev: int, dbRev: int) | Failure(server: Server, dbRev: int)

  /** ObserveRevision's `behind`. */
  predicate Enabled(e: Step) { e.Report? ==> e.agentRev < e.dbRev }

  function Do(pushed: map<Server, int>, e: Step): map<Server, int>
    requires Enabled(e)
  {
    match e
    case Report(server, _, dbRev) => ClaimPush(pushed, server, dbRev).0
    case Failure(server, dbRev) => SyncFailed(pushed, server, dbRev)
  }

  predicate Pushes(pushed: map<Server, int>, e: Step) { e.Report? && ClaimPush(pushed, e.server, e.dbRev).1 }

  ghost predicate RunOf(states: seq<map<Server, int>>, steps: seq<Step>) {
    && |states| == |steps| + 1 && states[0] == map[]
    && forall i :: 0 <= i < |steps| ==> Enabled(steps[i]) && states[i + 1] == Do(states[i], steps[i])
  }

  /** A step after which the server's revision may be pushed again: its sync failed, or
      another revision was pushed. */
  predicate Reopens(pushed: map<Server, int>, e: Step, server: Server, rev: int) {
    (e == Failure(server, rev)) || (Pushes(pushed, e) && e.server == server && e.dbRev != rev)
  }

  lemma {:induction false} StaysPushed(states: seq<map<Server, int>>, steps: seq<Step>, i: nat, j: nat)
    requires RunOf(states, steps) && i < j <= |steps| && Pushes(states[i], steps[i])
    requires forall k :: i < k < j ==> !Reopens(states[k], steps[k], steps[i].server, steps[i].dbRev)
    ensures Pushed(states[j], steps[i].server) == steps[i].dbRev
  {
    if j > i + 1 {
      StaysPushed(states, steps, i, j - 1);
      assert !Reopens(states[j - 1], steps[j - 1], steps[i].server, steps[i].dbRev);
    }
  }

  /** The map's zero value hides a push from a server without a claim exactly at revision 0. */
  lemma UnclaimedPushes(pushed: map<Server, int>, e: Step)
    requires e.Report? && Enabled(e) && e.server !in pushed
    ensures Pushes(pushed, e) <==> e.dbRev != 0
  {
  }

  /** Agents report no negative revision. */
  ghost predicate FromAgents(steps: seq<Step>) {
    forall i :: 0 <= i < |steps| && steps[i].Report? ==> steps[i].agentRev >= 0
  }

  /** Then an agent found behind is pushed to, unless an earlier push claimed that very revision
      and no sync of it failed since. */
  lemma BehindIsPushed(states: seq<map<Server, int>>, steps: seq<Step>, i: nat)
    requires RunOf(states, steps) && FromAgents(steps) && i < |steps| && steps[i].Report?
    ensures steps[i].server !in states[i] ==> Pushes(states[i], steps[i])
    ensures !Pushes(states[i], steps[i]) ==>
              exists k :: 0 <= k < i && Pushes(states[k], steps[k]) && steps[k].server == steps[i].server
                          && steps[k].dbRev == steps[i].dbRev
                          && forall j :: k < j < i ==> steps[j] != Failure(steps[i].server, steps[i].dbRev)
  {
    assert Enabled(steps[i]);
    if !Pushes(states[i], steps[i]) { LastClaim(states, steps, i, steps[i].server); }
  }

  /** The claim standing at i was made by some push, and no sync of it failed since. */
  lemma {:induction false} LastClaim(states: seq<map<Server, int>>, steps: seq<Step>, i: nat, server: Server)
    requires RunOf(states, steps) && i < |states| && server in states[i]
    ensures exists k :: 0 <= k < i && Pushes(states[k], steps[k]) && steps[k].server == server
                        && steps[k].dbRev == states[i][server]
                        && forall j :: k < j < i ==> steps[j] != Failure(server, states[i][server])
  {
    assert i > 0 && Enabled(steps[i - 1]) && states[i] == Do(states[i - 1], steps[i - 1]);
    if Pushes(states[i - 1], steps[i - 1]) && steps[i - 1].server == server {
      assert steps[i - 1].dbRev == states[i][server];
    } else {
      LastClaim(states, steps, i - 1, server);
      var k :| 0 <= k < i - 1 && Pushes(states[k], steps[k]) && steps[k].server == server
               && steps[k].dbRev == states[i - 1][server]
               && forall j :: k < j < i - 1 ==> steps[j] != Failure(server, states[i - 1][server]);
      assert steps[i - 1] != Failure(server, states[i][server]);
    }
  }

  /** A revision is pushed once: between two pushes of it to one server, its sync failed or
      another revision was pushed, whatever reports and failures interleave. */
  lemma PushedOncePerRevision(states: seq<map<Server, int>>, steps: seq<Step>, i: nat, j: nat)
    requires RunOf(states, steps) && i < j < |steps| && Pushes(states[i], steps[i]) && Pushes(states[j], steps[j])
    requires steps[i].server == steps[j].server && steps[i].dbRev == steps[j].dbRev
    ensures exists k :: i < k < j && Reopens(states[k], steps[k], steps[i].server, steps[i].dbRev)
  {
    if forall k :: i < k < j ==> !Reopens(states[k], steps[k], steps[i].server, steps[i].dbRev) {
      StaysPushed(states, steps, i, j);
    }
  }
}
