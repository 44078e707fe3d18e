/** internal/infra/bootstrap/indexsync.go: the pending syncs and the attempts in flight.
    Every method is one locked section; its clock readings are arguments, in seconds since
    the zero time. SyncState objects have identity: an attempt holds a reference. */
module IndexSyncs {
  import opened Common

  type Server = string

  /** A clock reading: any instant after the zero time.Time{}. */
  type Time = t: int | 0 < t witness 1

  const ZERO_TIME := 0
  const SYNC_TIMEOUT := 60
  const MAX_ATTEMPTS := 3

  /** A SyncState's value; id tells the objects apart. */
  datatype Entry = Entry(id: nat, attempts: nat, retried: bool, inFlightUntil: int)

  /** One dispatch of a pending sync. */
  datatype Attempt = Attempt(id: nat, n: nat)

  datatype Result = Success | NotConnected | OtherError

  /** What the lock guards: the pending syncs and how many states were ever made. */
  datatype Syncs = Syncs(pending: map<Server, Entry>, made: nat) {
    predicate Current(server: Server, a: Attempt) {
      server in pending && pending[server].id == a.id && pending[server].attempts == a.n
    }

    function With(server: Server, e: Entry): Syncs { this.(pending := pending[server := e]) }

    function Without(server: Server): Syncs { this.(pending := pending - {server}) }

    function Claim(server: Server, now: Time): (Syncs, Option<Attempt>)
      requires server in pending
    {
      var e := pending[server];
      if now < e.inFlightUntil || e.attempts >= MAX_ATTEMPTS then (this, None)
      else (With(server, e.(attempts := e.attempts + 1, inFlightUntil := now + SYNC_TIMEOUT)),
            Some(Attempt(e.id, e.attempts + 1)))
    }

    function Fresh(server: Server): Syncs { With(server, Entry(made, 0, false, ZERO_TIME)).(made := made + 1) }

    /** later: the second reading of the clock, in claimLocked. */
    function Online(server: Server, now: Time, later: Time): (Syncs, Option<Attempt>) {
      if server !in pending || now > pending[server].inFlightUntil then Fresh(server).Claim(server, later)
      else Claim(server, later)
    }

    function Heartbeat(server: Server, now: Time): (Syncs, Option<Attempt>) {
      if server in pending then Claim(server, now) else (this, None)
    }

    function DispatchFailed(server: Server, a: Attempt): Syncs {
      if Current(server, a) then With(server, pending[server].(inFlightUntil := ZERO_TIME)) else this
    }

    /** The new value and whether the retry timer is started. */
    function Settle(server: Server, a: Attempt, res: Result): (Syncs, bool) {
      if !Current(server, a) then (this, false)
      else if res != NotConnected || a.n >= MAX_ATTEMPTS then (Without(server), false)
      else
        var e := pending[server];
        (With(server, e.(inFlightUntil := ZERO_TIME, retried := true)), !e.retried)
    }
  }

  class SyncState {
    var attempts: nat
    var retried: bool
    var inFlightUntil: int
    ghost const id: nat

    constructor (ghost id: nat)
      ensures this.id == id && attempts == 0 && !retried && inFlightUntil == ZERO_TIME
    {
      attempts, retried, inFlightUntil := 0, false, ZERO_TIME;
      this.id := id;
    }

    ghost function Value(): Entry
      reads this
    {
      Entry(id, attempts, retried, inFlightUntil)
    }
  }

  class IndexSync {
    var pending: map<Server, SyncState>
    ghost var all: seq<SyncState>  // every state ever made, the forgotten ones too

    ghost predicate Known(st: SyncState)
      reads this
    {
      st.id < |all| && all[st.id] == st
    }

    ghost predicate Valid()
      reads this
    {
      && (forall i :: 0 <= i < |all| ==> all[i].id == i)
      && (forall s :: s in pending ==> Known(pending[s]))
      && (forall s, t :: s in pending && t in pending && s != t ==> pending[s] != pending[t])
    }

    ghost function Value(): Syncs
      requires Valid()
      reads this, all
    {
      Syncs(Entries(), |all|)
    }

    ghost function Entries(): map<Server, Entry>
      requires Valid()
      reads this, all
    {
      map s | s in pending :: assert Known(pending[s]); pending[s].Value()
    }

    constructor ()
      ensures Valid() && Value() == Syncs(map[], 0)
    {
      pending := map[];
      all := [];
    }

    /** The server's entry was deleted, or its state's fields were set, and nothing else. */
    twostate lemma Deleted(server: Server)
      requires old(Valid()) && all == old(all) && pending == old(pending) - {server}
      requires forall s :: s in pending ==> pending[s].Value() == old(pending[s].Value())
      ensures Valid() && Value() == old(Value()).Without(server)
    {
      assert Entries() == old(Entries()) - {server};
    }

    twostate lemma Changed(server: Server)
      requires old(Valid()) && all == old(all) && pending == old(pending) && server in pending
      requires forall s :: s in pending && s != server ==> pending[s].Value() == old(pending[s].Value())
      ensures Valid() && Value() == old(Value()).With(server, pending[server].Value())
    {
      assert Entries() == old(Entries())[server := pending[server].Value()];
    }

    /** claimLocked. */
    method Claim(ghost server: Server, st: SyncState, now: Time) returns (n: nat, fire: bool)
      requires Valid() && server in pending && pending[server] == st
      modifies st
      ensures Valid()
      ensures var (v, a) := old(Value()).Claim(server, now);
              Value() == v && (fire <==> a.Some?) && (fire ==> a.value == Attempt(st.id, n))
    {
      n, fire := 0, false;
      if now < st.inFlightUntil || st.attempts >= MAX_ATTEMPTS { return; }
      st.attempts := st.attempts + 1;
      st.inFlightUntil := now + SYNC_TIMEOUT;
      n, fire := st.attempts, true;
      Changed(server);
    }

    /** A new state takes the server's place. */
    method Replace(server: Server) returns (st: SyncState)
      requires Valid()
      modifies this
      ensures Valid() && Known(st) && fresh(st) && all == old(all) + [st]
      ensures server in pending && pending[server] == st
      ensures Value() == old(Value()).Fresh(server)
    {
      st := new SyncState(|all|);
      all := all + [st];
      pending := pending[server := st];
      assert Entries() == old(Entries())[server := Entry(|old(all)|, 0, false, ZERO_TIME)];
    }

    method Online(server: Server, now: Time, later: Time) returns (st: SyncState, n: nat, fire: bool)
      requires Valid()
      modifies this, all
      ensures Valid() && Known(st) && old(all) <= all && forall i :: |old(all)| <= i < |all| ==> fresh(all[i])
      ensures var (v, a) := old(Value()).Online(server, now, later);
              Value() == v && (fire <==> a.Some?) && (fire ==> a.value == Attempt(st.id, n))
    {
      if server !in pending || now > pending[server].inFlightUntil {
        st := Replace(server);
      } else {
        st := pending[server];
      }
      n, fire := Claim(server, st, later);
    }

    method Heartbeat(server: Server, now: Time) returns (n: nat, fire: bool)
      requires Valid()
      modifies all
      ensures Valid()
      ensures var (v, a) := old(Value()).Heartbeat(server, now);
              Value() == v && (fire <==> a.Some?)
              && (fire ==> server in pending && a.value == Attempt(pending[server].id, n))
    {
      n, fire := 0, false;
      if server in pending { n, fire := Claim(server, pending[server], now); }
    }

    /** currentLocked compares the references. */
    method CurrentLocked(server: Server, st: SyncState, n: nat) returns (ok: bool)
      requires Valid() && Known(st)
      ensures ok == Value().Current(server, Attempt(st.id, n))
    {
      ok := server in pending && pending[server] == st && st.attempts == n;
    }

    /** dispatch, when list returned an error. */
    method DispatchFailed(server: Server, st: SyncState, n: nat)
      requires Valid() && Known(st)
      modifies st
      ensures Valid() && Value() == old(Value()).DispatchFailed(server, Attempt(st.id, n))
    {
      var current := CurrentLocked(server, st, n);
      if current {
        st.inFlightUntil := ZERO_TIME;
        Changed(server);
      }
    }

    method Settle(server: Server, st: SyncState, n: nat, res: Result) returns (timer: bool)
      requires Valid() && Known(st)
      modifies this, st
      ensures Valid() && all == old(all)
      ensures (Value(), timer) == old(Value()).Settle(server, Attempt(st.id, n), res)
    {
      timer := false;
      var current := CurrentLocked(server, st, n);
      if !current { return; }
      if res != NotConnected {
        pending := pending - {server};
        Deleted(server);
        return;
      }
      st.inFlightUntil := ZERO_TIME;
      if st.attempts >= MAX_ATTEMPTS {
        pending := pending - {server};
        Deleted(server);
        return;
      }
      if !st.retried {
        st.retried := true;
        timer := true;
      }
      Changed(server);
    }

    /** The locked part of varsSync.capabilities after a purge. */
    method Drop(server: Server)
      requires Valid()
      modifies this
      ensures Valid() && Value() == old(Value()).Without(server) && all == old(all)
    {
      pending := pending - {server};
      Deleted(server);
    }
  }
}
