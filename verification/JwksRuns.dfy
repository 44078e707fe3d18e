/** Any number of concurrent keyFor calls on one cache, in every interleaving of their locked
    sections, as time passes. What a fetch brings, and whether it succeeds, is arbitrary. */
module JwksRuns {
  import opened Common
  import opened Jwks

  type Caller = nat

  /** A successful fetch, as stored. */
  datatype Fetch = Fetch(ks: seq<Jwk>, lifetime: Duration, at: int)

  /** Where a call is. begun is its first clock reading; fetch is the index of the fetch it
      stored; a call ends answered from the cache or without an answer of its own, or after its
      fetch, verified or in vain. */
  datatype Call =
    | Fetching(kid: string, begun: int)
    | Looking(kid: string, begun: int, fetch: nat)
    | Ended(answer: Answer)
    | Found(begun: int, fetch: nat, key: Key)
    | Vain(begun: int, fetch: nat, missedAt: int)

  datatype State = State(cache: Cache, now: int, calls: map<Caller, Call>, fetches: seq<Fetch>)

  datatype Step =
    | Tick(d: nat)
    | Begin(c: Caller, kid: string)
    | FetchFails(c: Caller)
    | Stores(c: Caller, ks: seq<Jwk>, lifetime: Duration)
    | Looks(c: Caller)

  ghost predicate Init(s: State) { s.cache == EMPTY && s.now >= 0 && s.calls == map[] && s.fetches == [] }

  predicate Enabled(s: State, e: Step) {
    match e
    case Tick(_) => true
    case Begin(c, _) => c !in s.calls
    case FetchFails(c) => c in s.calls && s.calls[c].Fetching?
    case Stores(c, _, lifetime) => c in s.calls && s.calls[c].Fetching? && MIN_LIFETIME <= lifetime <= MAX_LIFETIME
    case Looks(c) => c in s.calls && s.calls[c].Looking?
  }

  function Do(s: State, e: Step): State
    requires Enabled(s, e)
  {
    match e
    case Tick(d) => s.(now := s.now + d)
    case Begin(c, kid) =>
      (match s.cache.Check(kid, s.now)
       case Some(a) => s.(calls := s.calls[c := Ended(a)])
       case None => s.(calls := s.calls[c := Fetching(kid, s.now)]))
    case FetchFails(c) => s.(calls := s.calls[c := Ended(FetchError)])
    case Stores(c, ks, lifetime) =>
      s.(cache := s.cache.Store(ks, lifetime, s.now), fetches := s.fetches + [Fetch(ks, lifetime, s.now)],
         calls := s.calls[c := Looking(s.calls[c].kid, s.calls[c].begun, |s.fetches|)])
    case Looks(c) =>
      var call := s.calls[c];
      var (cache, a) := s.cache.Look(call.kid, s.now);
      s.(cache := cache, calls := s.calls[c :=
        if a.Verified? then Found(call.begun, call.fetch, a.key) else Vain(call.begun, call.fetch, s.now)])
  }

  // ---- What every step keeps ----

  /** The cache is the last set stored, trusted for its own lifetime. */
  ghost predicate HoldsLast(cache: Cache, fetches: seq<Fetch>) {
    if fetches == [] then cache.keys == None else
      var last := fetches[|fetches| - 1];
      cache.keys == Some(KeysOf(last.ks)) && cache.until == last.at + last.lifetime as int
  }

  ghost predicate FetchesOk(fetches: seq<Fetch>, now: int) {
    && (forall i :: 0 <= i < |fetches| ==> MIN_LIFETIME <= fetches[i].lifetime <= MAX_LIFETIME && fetches[i].at <= now)
    && (forall i, j :: 0 <= i < j < |fetches| ==> fetches[i].at <= fetches[j].at)
  }

  /** A call's readings are in order, and a vain one has armed the throttle. */
  ghost predicate CallOk(s: State, call: Call) {
    match call
    case Fetching(_, begun) => begun <= s.now
    case Looking(_, begun, fetch) => fetch < |s.fetches| && begun <= s.fetches[fetch].at
    case Ended(_) => true
    case Found(begun, fetch, _) => fetch < |s.fetches| && begun <= s.fetches[fetch].at
    case Vain(begun, fetch, missedAt) =>
      fetch < |s.fetches| && begun <= s.fetches[fetch].at <= missedAt <= s.cache.lastMissAt
  }

  ghost predicate Inv(s: State) {
    && HoldsLast(s.cache, s.fetches) && FetchesOk(s.fetches, s.now) && s.cache.lastMissAt <= s.now
    && forall c :: c in s.calls ==> CallOk(s, s.calls[c])
  }

  lemma InvFetches(s: State, e: Step)
    requires Inv(s) && Enabled(s, e)
    ensures var t := Do(s, e);
            HoldsLast(t.cache, t.fetches) && FetchesOk(t.fetches, t.now) && t.cache.lastMissAt <= t.now
  {
  }

  /** What a step leaves of what the calls rest on. */
  lemma OnlyGrows(s: State, e: Step)
    requires Inv(s) && Enabled(s, e)
    ensures var t := Do(s, e); s.fetches <= t.fetches && s.now <= t.now && s.cache.lastMissAt <= t.cache.lastMissAt
  {
  }

  lemma OtherCalls(s: State, e: Step, c: Caller)
    requires Enabled(s, e) && c in Do(s, e).calls && (e.Tick? || e.c != c)
    ensures c in s.calls && Do(s, e).calls[c] == s.calls[c]
  {
  }

  lemma CallStaysOk(s: State, t: State, call: Call)
    requires CallOk(s, call) && s.fetches <= t.fetches && s.now <= t.now && s.cache.lastMissAt <= t.cache.lastMissAt
    ensures CallOk(t, call)
  {
  }

  lemma OwnCallOk(s: State, e: Step)
    requires Inv(s) && Enabled(s, e) && !e.Tick?
    ensures CallOk(Do(s, e), Do(s, e).calls[e.c])
  {
    if e.c in s.calls { assert CallOk(s, s.calls[e.c]); }
  }

  lemma InvStep(s: State, e: Step)
    requires Inv(s) && Enabled(s, e)
    ensures Inv(Do(s, e))
  {
    var t := Do(s, e);
    assert forall c :: c in s.calls ==> CallOk(s, s.calls[c]);
    InvFetches(s, e);
    OnlyGrows(s, e);
    hide Do;
    hide HoldsLast;
    hide FetchesOk;
    hide CallOk;
    forall c | c in t.calls ensures CallOk(t, t.calls[c]) {
      if e.Tick? || e.c != c {
        OtherCalls(s, e, c);
        CallStaysOk(s, t, s.calls[c]);
      } else {
        OwnCallOk(s, e);
      }
    }
  }

  ghost predicate RunOf(states: seq<State>, steps: seq<Step>) {
    && |states| == |steps| + 1 && Init(states[0])
    && forall i :: 0 <= i < |steps| ==> Enabled(states[i], steps[i]) && states[i + 1] == Do(states[i], steps[i])
  }

  lemma {:induction false} EveryState(states: seq<State>, steps: seq<Step>, i: nat)
    requires RunOf(states, steps) && i < |states|
    ensures Inv(states[i])
  {
    if i > 0 {
      EveryState(states, steps, i - 1);
      InvStep(states[i - 1], steps[i - 1]);
    }
  }

  // ---- Keys ----

  /** The cache is always the last set fetched, trusted for the lifetime it came with, and the
      throttle's time is not ahead of the clock. */
  lemma CacheIsLastFetch(states: seq<State>, steps: seq<Step>, i: nat)
    requires RunOf(states, steps) && i < |states|
    ensures HoldsLast(states[i].cache, states[i].fetches) && states[i].cache.lastMissAt <= states[i].now
  {
    EveryState(states, steps, i);
  }

  /** In every interleaving a call that begins verifies only with a key of the last set stored,
      which is younger than its lifetime, so than a day. */
  lemma KeysAreCurrent(states: seq<State>, steps: seq<Step>, i: nat, key: Key)
    requires RunOf(states, steps) && i < |steps| && steps[i].Begin?
    requires states[i + 1].calls[steps[i].c] == Ended(Verified(key))
    ensures var s := states[i];
            && s.fetches != []
            && var last := s.fetches[|s.fetches| - 1];
               && steps[i].kid in KeysOf(last.ks) && key == KeysOf(last.ks)[steps[i].kid]
               && s.now - last.at < last.lifetime as int <= 86_400_000_000_000
  {
    EveryState(states, steps, i);
  }

  /** A call that fetched verifies with a key of the last set stored: its own, or one a
      concurrent call stored after it. */
  lemma FetchedKeysAreCurrent(states: seq<State>, steps: seq<Step>, i: nat)
    requires RunOf(states, steps) && i < |steps| && steps[i].Looks? && states[i + 1].calls[steps[i].c].Found?
    ensures var s := states[i];
            var call := s.calls[steps[i].c];
            && call.fetch < |s.fetches|
            && var last := s.fetches[|s.fetches| - 1];
               call.kid in KeysOf(last.ks) && states[i + 1].calls[steps[i].c].key == KeysOf(last.ks)[call.kid]
  {
    EveryState(states, steps, i);
    assert Enabled(states[i], steps[i]);
    assert CallOk(states[i], states[i].calls[steps[i].c]);
  }

  /** The last set stored is still trusted. */
  ghost predicate Trusted(s: State) {
    s.fetches != [] && s.now < s.fetches[|s.fetches| - 1].at + s.fetches[|s.fetches| - 1].lifetime as int
  }

  /** A call fetches exactly when the last set is no longer trusted, or lacks the kid and no fetch
      was found vain within the last minute; a kid of a trusted set is answered at once. */
  lemma BeginFetchesIff(states: seq<State>, steps: seq<Step>, i: nat)
    requires RunOf(states, steps) && i < |steps| && steps[i].Begin?
    ensures var s, kid := states[i], steps[i].kid;
            var known := s.fetches != [] && kid in KeysOf(s.fetches[|s.fetches| - 1].ks);
            && (states[i + 1].calls[steps[i].c].Fetching? <==>
                  !Trusted(s) || (!known && s.now - s.cache.lastMissAt >= 60_000_000_000))
            && (Trusted(s) && known ==>
                  states[i + 1].calls[steps[i].c] == Ended(Verified(KeysOf(s.fetches[|s.fetches| - 1].ks)[kid])))
  {
    EveryState(states, steps, i);
    assert Enabled(states[i], steps[i]);
  }

  /** After its fetch a call verifies exactly when the last set stored by then has the kid; else it
      arms the throttle. */
  lemma LooksFindsIff(states: seq<State>, steps: seq<Step>, i: nat)
    requires RunOf(states, steps) && i < |steps| && steps[i].Looks?
    ensures var s, t, c := states[i], states[i + 1], steps[i].c;
            && c in s.calls && s.calls[c].Looking? && s.fetches != []
            && (t.calls[c].Found? <==> s.calls[c].kid in KeysOf(s.fetches[|s.fetches| - 1].ks))
            && (t.calls[c].Found? || (t.calls[c].Vain? && t.cache.lastMissAt == s.now))
  {
    EveryState(states, steps, i);
    assert Enabled(states[i], steps[i]) && CallOk(states[i], states[i].calls[steps[i].c]);
  }

  // ---- The throttle ----

  /** What a call has fetched, if it has. */
  function FetchOf(call: Call): Option<nat> {
    match call
    case Looking(_, _, fetch) => Some(fetch)
    case Found(_, fetch, _) => Some(fetch)
    case Vain(_, fetch, _) => Some(fetch)
    case _ => None
  }

  lemma KeepsBegun(s: State, e: Step, c: Caller)
    requires Inv(s) && Enabled(s, e) && c in s.calls
    ensures c in Do(s, e).calls && s.fetches <= Do(s, e).fetches
    ensures Do(s, e).calls[c].Ended? || (!s.calls[c].Ended? && Do(s, e).calls[c].begun == s.calls[c].begun)
  {
  }

  lemma {:induction false} BegunStands(states: seq<State>, steps: seq<Step>, i: nat, j: nat, c: Caller)
    requires RunOf(states, steps) && i <= j < |states| && c in states[i].calls && !states[i].calls[c].Ended?
    ensures c in states[j].calls && states[i].fetches <= states[j].fetches
    ensures states[j].calls[c].Ended? || states[j].calls[c].begun == states[i].calls[c].begun
  {
    if i < j {
      BegunStands(states, steps, i, j - 1, c);
      EveryState(states, steps, j - 1);
      KeepsBegun(states[j - 1], steps[j - 1], c);
    }
  }

  /** A call that begins once another has fetched in vain starts a fetch only a minute or more
      after the other's. */
  lemma BeginsThrottled(s: State, c: Caller, kid: string, v: Caller)
    requires Inv(s) && Enabled(s, Begin(c, kid)) && v in s.calls && s.calls[v].Vain?
    requires Do(s, Begin(c, kid)).calls[c].Fetching?
    ensures s.calls[v].fetch < |s.fetches| && s.now >= s.fetches[s.calls[v].fetch].at + MIN_REFRESH as int
  {
    assert CallOk(s, s.calls[v]);
    var f := s.calls[v].fetch;
    var last := |s.fetches| - 1;
    assert f < last ==> s.fetches[f].at <= s.fetches[last].at;
  }

  /** In every interleaving, a fetch by a call begun after a vain one ended is a minute or more
      after that one's: so is a second fetch for a kid that does not exist. */
  lemma VainFetchesThrottled(states: seq<State>, steps: seq<Step>, i: nat, j: nat, v: Caller)
    requires RunOf(states, steps) && i < j < |states| && steps[i].Begin?
    requires v in states[i].calls && states[i].calls[v].Vain?
    requires steps[i].c in states[j].calls && FetchOf(states[j].calls[steps[i].c]).Some?
    ensures var f, g := states[i].calls[v].fetch, FetchOf(states[j].calls[steps[i].c]).value;
            f < |states[j].fetches| && g < |states[j].fetches|
            && states[j].fetches[g].at - states[j].fetches[f].at >= 60_000_000_000
  {
    var c := steps[i].c;
    EveryState(states, steps, i);
    EveryState(states, steps, j);
    assert Enabled(states[i], steps[i]) && states[i + 1] == Do(states[i], steps[i]);
    assert CallOk(states[i], states[i].calls[v]) && CallOk(states[j], states[j].calls[c]);
    if states[i + 1].calls[c].Ended? {
      EndedStands(states, steps, i + 1, j, c);
    } else {
      BeginsThrottled(states[i], c, steps[i].kid, v);
      BegunStands(states, steps, i + 1, j, c);
    }
  }

  lemma {:induction false} EndedStands(states: seq<State>, steps: seq<Step>, i: nat, j: nat, c: Caller)
    requires RunOf(states, steps) && i <= j < |states| && c in states[i].calls && states[i].calls[c].Ended?
    ensures c in states[j].calls && states[j].calls[c] == states[i].calls[c]
  {
    if i < j {
      EndedStands(states, steps, i, j - 1, c);
      assert Enabled(states[j - 1], steps[j - 1]);
    }
  }

  /** Two calls that fetched in vain in one instant. */
  ghost predicate TwoAtOnce(s: State, v: Caller, w: Caller) {
    && v in s.calls && w in s.calls && s.calls[v].Vain? && s.calls[w].Vain? && s.calls[v].fetch != s.calls[w].fetch
    && s.calls[v].fetch < |s.fetches| && s.calls[w].fetch < |s.fetches|
    && s.fetches[s.calls[v].fetch].at == s.fetches[s.calls[w].fetch].at
  }

  ghost predicate Reachable(s: State) {
    exists states, steps :: RunOf(states, steps) && s == states[|steps|]
  }

  lemma ReachableStep(s: State, e: Step)
    requires Reachable(s) && Enabled(s, e)
    ensures Reachable(Do(s, e))
  {
    var states, steps :| RunOf(states, steps) && s == states[|steps|];
    assert RunOf(states + [Do(s, e)], steps + [e]);
  }

  /** Calls that overlap are not throttled. */
  lemma OverlapNotThrottled(kid: string, other: string, start: nat)
    ensures exists s :: Reachable(s) && TwoAtOnce(s, 0, 1)
  {
    var s0 := State(EMPTY, start, map[], []);
    assert RunOf([s0], []);
    ReachableStep(s0, Begin(0, kid));
    var s1 := Do(s0, Begin(0, kid));
    ReachableStep(s1, Begin(1, other));
    BothFetch(Do(s1, Begin(1, other)), kid, other);
  }

  lemma BothFetch(s: State, kid: string, other: string)
    requires Reachable(s) && s.cache == EMPTY && s.fetches == []
    requires s.calls == map[0 := Fetching(kid, s.now), 1 := Fetching(other, s.now)]
    ensures exists t :: Reachable(t) && TwoAtOnce(t, 0, 1)
  {
    var life := MIN_LIFETIME;
    ReachableStep(s, Stores(0, [], life));
    var s1 := Do(s, Stores(0, [], life));
    ReachableStep(s1, Stores(1, [], life));
    var s2 := Do(s1, Stores(1, [], life));
    assert KeysOf([]) == map[];
    ReachableStep(s2, Looks(0));
    var s3 := Do(s2, Looks(0));
    ReachableStep(s3, Looks(1));
    assert TwoAtOnce(Do(s3, Looks(1)), 0, 1);
  }
}
