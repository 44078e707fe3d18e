/** internal/domain/model/rollout.go: the scope of a vars_reload rollout, and extending it. */
module RolloutScope {
  import opened Order

  /** SettleBy in whole seconds. */
  datatype ReloadScope = ReloadScope(
    names: seq<string>, serverIDs: seq<string>, allStale: seq<string>, appIDs: seq<string>,
    revisions: map<string, int>, settleBy: int)

  /** slices.Compact: each run of equal elements becomes one. */
  method Compact(s: seq<string>) returns (out: seq<string>)
    requires Sorted(s, Less)
    ensures Increasing(out) && Elems(out) == Elems(s)
  {
    out := [];
    for i := 0 to |s|
      invariant Increasing(out) && Elems(out) == Elems(s[..i])
      invariant (out == [] <==> i == 0) && (i > 0 ==> out[|out| - 1] == s[i - 1])
    {
      assert s[..i + 1] == s[..i] + [s[i]];
      ElemsConcat(s[..i], [s[i]]);
      if i == 0 || s[i] != s[i - 1] {
        Grows(out, s, i);
        ElemsConcat(out, [s[i]]);
        out := out + [s[i]];
      } else {
        assert s[i] in Elems(out);
      }
    }
    assert s[..|s|] == s;
  }

  lemma Grows(out: seq<string>, s: seq<string>, i: nat)
    requires Increasing(out) && Sorted(s, Less) && i < |s| && (out == [] <==> i == 0)
    requires i > 0 ==> out[|out| - 1] == s[i - 1] && s[i] != s[i - 1]
    ensures Increasing(out + [s[i]])
  {
    if i > 0 {
      LessTotal(s[i - 1], s[i]);
      forall j | 0 <= j < |out| ensures Less(out[j], s[i]) {
        if j < |out| - 1 { LessTransitive(out[j], s[i - 1], s[i]); }
      }
    }
  }

  /** joined: both lists, sorted, without duplicates. */
  ghost function Joined(a: seq<string>, b: seq<string>): seq<string> { SortedKeys(Elems(a) + Elems(b)) }

  method Join(a: seq<string>, b: seq<string>) returns (out: seq<string>)
    ensures out == Joined(a, b)
  {
    var sorted := SortedBy(a + b, Less);
    LessIsStrict();
    SortedBySorts(a + b, Less);
    SameElems(sorted, a + b);
    ElemsConcat(a, b);
    out := Compact(sorted);
    SameElemsSameList(out, Joined(a, b));
  }

  /** The higher revision of each server in either. */
  function MaxRevisions(a: map<string, int>, b: map<string, int>): map<string, int> {
    map id | id in a.Keys + b.Keys ::
      if id !in b then a[id] else if id !in a then b[id] else if b[id] > a[id] then b[id] else a[id]
  }

  ghost function Merged(s: ReloadScope, o: ReloadScope): ReloadScope {
    ReloadScope(Joined(s.names, o.names), Joined(s.serverIDs, o.serverIDs), Joined(s.allStale, o.allStale),
                Joined(s.appIDs, o.appIDs), MaxRevisions(s.revisions, o.revisions),
                if o.settleBy > s.settleBy then o.settleBy else s.settleBy)
  }

  method AddRevisions(out: map<string, int>, m: map<string, int>) returns (r: map<string, int>)
    ensures r == MaxRevisions(out, m)
  {
    r := out;
    var rest := m.Keys;
    while rest != {}
      invariant rest <= m.Keys
      invariant r == MaxRevisions(out, m - rest)
      decreases rest
    {
      var id :| id in rest;
      if id !in r || m[id] > r[id] { r := r[id := m[id]]; }
      rest := rest - {id};
    }
    assert m - {} == m;
  }

  method Merge(s: ReloadScope, o: ReloadScope) returns (out: ReloadScope)
    ensures out == Merged(s, o)
  {
    var names := Join(s.names, o.names);
    var serverIDs := Join(s.serverIDs, o.serverIDs);
    var allStale := Join(s.allStale, o.allStale);
    var appIDs := Join(s.appIDs, o.appIDs);
    var revisions := AddRevisions(map[], s.revisions);
    revisions := AddRevisions(revisions, o.revisions);
    assert MaxRevisions(map[], s.revisions) == s.revisions;
    var settleBy := s.settleBy;
    if o.settleBy > settleBy { settleBy := o.settleBy; }
    out := ReloadScope(names, serverIDs, allStale, appIDs, revisions, settleBy);
  }

  /** The form every merge has: sorted lists without duplicates. */
  ghost predicate Normal(s: ReloadScope) {
    Increasing(s.names) && Increasing(s.serverIDs) && Increasing(s.allStale) && Increasing(s.appIDs)
  }

  ghost function Normalized(s: ReloadScope): ReloadScope {
    s.(names := SortedKeys(Elems(s.names)), serverIDs := SortedKeys(Elems(s.serverIDs)),
       allStale := SortedKeys(Elems(s.allStale)), appIDs := SortedKeys(Elems(s.appIDs)))
  }

  lemma JoinedLaws(a: seq<string>, b: seq<string>, c: seq<string>)
    ensures Joined(a, b) == Joined(b, a) && Joined(a, Joined(b, c)) == Joined(Joined(a, b), c)
    ensures Joined(a, a) == SortedKeys(Elems(a)) && Elems(Joined(a, b)) == Elems(a) + Elems(b)
  {
    assert Elems(a) + Elems(b) == Elems(b) + Elems(a);
    assert Elems(a) + (Elems(b) + Elems(c)) == Elems(a) + Elems(b) + Elems(c);
    assert Elems(a) + Elems(a) == Elems(a);
  }

  lemma RevisionLaws(a: map<string, int>, b: map<string, int>, c: map<string, int>)
    ensures MaxRevisions(a, b) == MaxRevisions(b, a)
    ensures MaxRevisions(a, MaxRevisions(b, c)) == MaxRevisions(MaxRevisions(a, b), c)
    ensures MaxRevisions(a, a) == a
  {
  }

  /** Merging is a join: the order and the grouping of extensions do not matter, and merging
      a scope with itself only sorts it. */
  lemma MergeIsJoin(a: ReloadScope, b: ReloadScope, c: ReloadScope)
    ensures Merged(a, b) == Merged(b, a)
    ensures Merged(a, Merged(b, c)) == Merged(Merged(a, b), c)
    ensures Merged(a, a) == Normalized(a)
    ensures Normal(Merged(a, b))
  {
    JoinedLaws(a.names, b.names, c.names);
    JoinedLaws(a.serverIDs, b.serverIDs, c.serverIDs);
    JoinedLaws(a.allStale, b.allStale, c.allStale);
    JoinedLaws(a.appIDs, b.appIDs, c.appIDs);
    RevisionLaws(a.revisions, b.revisions, c.revisions);
  }

  predicate Wants(s: ReloadScope, serverID: string, appID: string, stale: seq<string>) {
    stale != [] &&
    (serverID in s.allStale || appID in s.appIDs
     || (serverID in s.serverIDs && exists i :: 0 <= i < |stale| && stale[i] in s.names))
  }

  /** A scope of one entry, and which apps it wants. */
  datatype Part = StaleOn(server: string) | App(id: string) | NameOn(server: string, name: string)

  ghost predicate Has(s: ReloadScope, p: Part) {
    match p
    case StaleOn(server) => server in s.allStale
    case App(id) => id in s.appIDs
    case NameOn(server, name) => server in s.serverIDs && name in s.names
  }

  predicate PartWants(p: Part, serverID: string, appID: string, stale: seq<string>) {
    match p
    case StaleOn(server) => server == serverID && stale != []
    case App(id) => id == appID && stale != []
    case NameOn(server, name) => server == serverID && name in stale
  }

  /** A scope wants what one of its parts wants: an app that is stale at all, on a server whose
      stale apps are all wanted or by its id; or one stale for a wanted name on a wanted server. */
  lemma WantsByPart(s: ReloadScope, serverID: string, appID: string, stale: seq<string>)
    ensures Wants(s, serverID, appID, stale) <==> exists p :: Has(s, p) && PartWants(p, serverID, appID, stale)
  {
    if Wants(s, serverID, appID, stale) {
      if serverID in s.allStale {
        assert Has(s, StaleOn(serverID)) && PartWants(StaleOn(serverID), serverID, appID, stale);
      } else if appID in s.appIDs {
        assert Has(s, App(appID)) && PartWants(App(appID), serverID, appID, stale);
      } else {
        var i :| 0 <= i < |stale| && stale[i] in s.names;
        var p := NameOn(serverID, stale[i]);
        assert Has(s, p) && PartWants(p, serverID, appID, stale);
      }
    }
  }

  /** Whatever either scope wants, the merge wants; and it waits for the later revision and
      the later deadline of the two. */
  lemma MergeWantsBoth(a: ReloadScope, b: ReloadScope, serverID: string, appID: string, stale: seq<string>)
    ensures Wants(a, serverID, appID, stale) || Wants(b, serverID, appID, stale) ==>
            Wants(Merged(a, b), serverID, appID, stale)
    ensures forall id :: id in a.revisions ==>
              id in Merged(a, b).revisions && Merged(a, b).revisions[id] >= a.revisions[id]
    ensures forall id :: id in b.revisions ==>
              id in Merged(a, b).revisions && Merged(a, b).revisions[id] >= b.revisions[id]
    ensures forall id :: id in Merged(a, b).revisions ==>
              (id in a.revisions && Merged(a, b).revisions[id] == a.revisions[id])
              || (id in b.revisions && Merged(a, b).revisions[id] == b.revisions[id])
    ensures Merged(a, b).settleBy >= a.settleBy && Merged(a, b).settleBy >= b.settleBy
    ensures Merged(a, b).settleBy == a.settleBy || Merged(a, b).settleBy == b.settleBy
  {
    var m := Merged(a, b);
    ElementsKept(a.names, b.names);
    ElementsKept(a.serverIDs, b.serverIDs);
    ElementsKept(a.allStale, b.allStale);
    ElementsKept(a.appIDs, b.appIDs);
  }

  predicate Names(s: ReloadScope, stale: seq<string>) { exists i :: 0 <= i < |stale| && stale[i] in s.names }

  /** What the merge wants beyond that: a server of one scope with a name of the other. */
  lemma MergeWantsExactly(a: ReloadScope, b: ReloadScope, serverID: string, appID: string, stale: seq<string>)
    ensures Wants(Merged(a, b), serverID, appID, stale) <==>
            Wants(a, serverID, appID, stale) || Wants(b, serverID, appID, stale)
            || (serverID in a.serverIDs && Names(b, stale)) || (serverID in b.serverIDs && Names(a, stale))
  {
    ElementsKept(a.names, b.names);
    ElementsKept(a.serverIDs, b.serverIDs);
    ElementsKept(a.allStale, b.allStale);
    ElementsKept(a.appIDs, b.appIDs);
  }

  lemma ElementsKept(a: seq<string>, b: seq<string>)
    ensures forall x :: x in Joined(a, b) <==> x in a || x in b
  {
    forall x ensures x in Joined(a, b) <==> x in a || x in b {
      assert x in Elems(Joined(a, b)) <==> x in Elems(a) || x in Elems(b);
    }
  }
}
