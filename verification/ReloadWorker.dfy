/** internal/app/agent/reload_worker.go: the fields of ReloadWorker, and every critical
    section and channel operation on them. A section is a function on the fields' values
    (what the interleavings of ReloadProtocol are made of) and a method that performs it in
    place. */
module ReloadWorkers {
  import opened Order

  type App = string

  /** A waiter: the channel EnqueueApp made, told apart by a number. */
  type Chan = nat

  /** command.ReloadVarsRequest. */
  datatype Request = Request(names: seq<string>, apps: seq<App>)

  /** Merged pending work. */
  datatype Batch = Batch(all: bool, names: set<string>, apps: set<App>) {
    predicate Empty() { !all && names == {} && apps == {} }
  }

  const NEW_BATCH := Batch(false, {}, {})

  datatype Fields = Fields(pending: Batch, busy: bool, dropped: set<App>, waiters: map<App, seq<Chan>>, wake: bool) {
    function WaitersOf(app: App): seq<Chan> { if app in waiters then waiters[app] else [] }

    function Merge(req: Request): Fields {
      if req.apps != [] then
        this.(pending := pending.(apps := pending.apps + Elems(req.apps)), dropped := dropped - Elems(req.apps))
      else if req.names != [] then
        this.(pending := pending.(names := pending.names + Elems(req.names)))
      else this.(pending := pending.(all := true))
    }

    function Register(app: App, ch: Chan): Fields {
      this.(waiters := waiters[app := WaitersOf(app) + [ch]])
    }

    function Unregister(app: App): Fields { this.(waiters := waiters - {app}) }

    function MarkForgotten(app: App): Fields {
      this.(pending := pending.(apps := pending.apps - {app}), dropped := if busy then dropped + {app} else dropped)
    }

    function EndPass(): Fields { this.(busy := false, dropped := {}) }

    function WaitedOnly(): bool {
      !pending.all && pending.names == {} && forall id :: id in pending.apps ==> WaitersOf(id) != []
    }
  }

  const START := Fields(NEW_BATCH, false, {}, map[], false)

  /** Appends the ids not yet in the set, which it keeps equal to the list's elements:
      drain's queue and queued, candidates' out and seen. */
  function AddNew(list: seq<App>, known: set<App>, ids: seq<App>): (r: (seq<App>, set<App>))
    ensures r.1 == known + Elems(ids)
    decreases |ids|
  {
    if ids == [] then (list, known) else
      assert ids == [ids[0]] + ids[1..];
      assert Elems(ids) == {ids[0]} + Elems(ids[1..]);
      if ids[0] in known then AddNew(list, known, ids[1..])
      else AddNew(list + [ids[0]], known + {ids[0]}, ids[1..])
  }

  lemma {:induction false} AddNewKeeps(list: seq<App>, known: set<App>, ids: seq<App>)
    requires NoDup(list) && Elems(list) <= known
    ensures var (l, k) := AddNew(list, known, ids);
            NoDup(l) && Elems(l) == Elems(list) + (Elems(ids) - known) && list <= l
    decreases |ids|
  {
    if ids != [] {
      assert Elems(ids) == {ids[0]} + Elems(ids[1..]) by { assert ids == [ids[0]] + ids[1..]; }
      if ids[0] in known {
        AddNewKeeps(list, known, ids[1..]);
      } else {
        ElemsConcat(list, [ids[0]]);
        assert Elems([ids[0]]) == {ids[0]};
        assert ids[0] !in Elems(list);
        AddNewKeeps(list + [ids[0]], known + {ids[0]}, ids[1..]);
      }
    }
  }

  class ReloadWorker {
    var pendingAll: bool
    var pendingNames: set<string>
    var pendingApps: set<App>
    var busy: bool
    var dropped: set<App>
    var waiters: map<App, seq<Chan>>
    var wake: bool

    ghost function Value(): Fields
      reads this
    {
      Fields(Batch(pendingAll, pendingNames, pendingApps), busy, dropped, waiters, wake)
    }

    constructor ()
      ensures Value() == START
    {
      pendingAll, pendingNames, pendingApps := false, {}, {};
      busy, dropped, waiters, wake := false, {}, map[], false;
    }

    /** The locked part of Enqueue. */
    method Merge(req: Request)
      modifies this
      ensures Value() == old(Value()).Merge(req)
    {
      if |req.apps| > 0 {
        for i := 0 to |req.apps|
          invariant pendingApps == old(pendingApps) + Elems(req.apps[..i])
          invariant dropped == old(dropped) - Elems(req.apps[..i])
          invariant unchanged(`pendingAll, `pendingNames, `busy, `waiters, `wake)
        {
          pendingApps := pendingApps + {req.apps[i]};
          dropped := dropped - {req.apps[i]};
          assert req.apps[..i + 1] == req.apps[..i] + [req.apps[i]];
          ElemsConcat(req.apps[..i], [req.apps[i]]);
        }
        assert req.apps[..|req.apps|] == req.apps;
      } else if |req.names| > 0 {
        for i := 0 to |req.names|
          invariant pendingNames == old(pendingNames) + Elems(req.names[..i])
          invariant unchanged(`pendingAll, `pendingApps, `busy, `dropped, `waiters, `wake)
        {
          pendingNames := pendingNames + {req.names[i]};
          assert req.names[..i + 1] == req.names[..i] + [req.names[i]];
          ElemsConcat(req.names[..i], [req.names[i]]);
        }
        assert req.names[..|req.names|] == req.names;
      } else {
        pendingAll := true;
      }
    }

    /** The non-blocking send on the one-slot wake channel. */
    method Signal()
      modifies this`wake
      ensures Value() == old(Value()).(wake := true)
    {
      if !wake { wake := true; }
    }

    method Register(app: App, ch: Chan)
      modifies this`waiters
      ensures Value() == old(Value()).Register(app, ch)
    {
      waiters := waiters[app := (if app in waiters then waiters[app] else []) + [ch]];
    }

    method TakeWaiters(app: App) returns (ws: seq<Chan>)
      modifies this`waiters
      ensures ws == old(Value()).WaitersOf(app)
      ensures Value() == old(Value()).Unregister(app)
    {
      ws := if app in waiters then waiters[app] else [];
      waiters := waiters - {app};
    }

    /** The first locked part of Forget. */
    method MarkForgotten(app: App)
      modifies this
      ensures Value() == old(Value()).MarkForgotten(app)
    {
      pendingApps := pendingApps - {app};
      if busy { dropped := dropped + {app}; }
    }

    method BeginPass()
      modifies this`busy
      ensures Value() == old(Value()).(busy := true)
    {
      busy := true;
    }

    method EndPass()
      modifies this
      ensures Value() == old(Value()).EndPass()
    {
      busy := false;
      dropped := {};
    }

    method Take() returns (b: Batch, waitedOnly: bool, ok: bool)
      modifies this
      ensures b == old(Value()).pending && ok == !b.Empty()
      ensures ok ==> waitedOnly == old(Value()).WaitedOnly()
      ensures Value() == if ok then old(Value()).(pending := NEW_BATCH) else old(Value())
    {
      ghost var was := Value();
      b := Batch(pendingAll, pendingNames, pendingApps);
      waitedOnly := false;
      ok := !b.Empty();
      if !ok { return; }
      pendingAll, pendingNames, pendingApps := false, {}, {};
      waitedOnly := !b.all && |b.names| == 0;
      var rest := b.apps;
      while rest != {}
        invariant rest <= b.apps
        invariant waitedOnly <==>
                  !b.all && b.names == {} && forall id :: id in b.apps && id !in rest ==> was.WaitersOf(id) != []
        decreases rest
      {
        var id :| id in rest;
        var waited := id in waiters && |waiters[id]| > 0;
        assert waited <==> was.WaitersOf(id) != [];
        waitedOnly := waitedOnly && waited;
        rest := rest - {id};
      }
    }

    /** The locked part of Run's final sweep. */
    method TakeAllWaiters() returns (all: map<App, seq<Chan>>)
      modifies this`waiters
      ensures all == old(waiters) && Value() == old(Value()).(waiters := map[])
    {
      all := waiters;
      waiters := map[];
    }
  }

  /** The loops of drain and candidates over resolved ids. */
  method AddEach(list: seq<App>, known: set<App>, ids: seq<App>) returns (list': seq<App>, known': set<App>)
    ensures (list', known') == AddNew(list, known, ids)
  {
    list', known' := list, known;
    for i := 0 to |ids|
      invariant AddNew(list, known, ids) == AddNew(list', known', ids[i..])
    {
      if ids[i] !in known' {
        known' := known' + {ids[i]};
        list' := list' + [ids[i]];
      }
    }
  }
}
