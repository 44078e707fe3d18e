/** internal/infra/vars/resolve.go: a snapshot resolved for one server. */
module Resolve {
  import opened Common
  import opened Order
  import opened Snapshots

  /** Value scopes, lowest precedence first. */
  datatype ValueScope = Builtin | Shared(scope: Scope)

  datatype Value = Value(value: string, secret: bool, scope: ValueScope)

  datatype VarRef = VarRef(scope: Scope, name: string)

  /** The agent key's decryption, or a failure. */
  type Decrypter = string -> Option<string>

  datatype Resolution = Resolution(values: map<string, Value>, undecryptable: seq<VarRef>, missing: seq<VarRef>)

  // ---- One entry ----

  predicate IsMissing(v: SharedVar) { v.isSecret && v.ciphertext == "" }

  predicate IsUndecryptable(v: SharedVar, decrypt: Decrypter) {
    v.isSecret && v.ciphertext != "" && decrypt(v.ciphertext).None?
  }

  predicate Usable(v: SharedVar, decrypt: Decrypter) { !IsMissing(v) && !IsUndecryptable(v, decrypt) }

  function ValueOf(v: SharedVar, scope: Scope, decrypt: Decrypter): Value
    requires Usable(v, decrypt)
  {
    if v.isSecret then Value(decrypt(v.ciphertext).value, true, Shared(scope)) else Value(v.value, false, Shared(scope))
  }

  // ---- A list of one scope ----

  /** What the list makes of a name: its last usable entry, else what was there. */
  function Applied(was: Option<Value>, list: seq<SharedVar>, scope: Scope, decrypt: Decrypter,
                   name: string): Option<Value> {
    if list == [] then was else
      var v := list[|list| - 1];
      if v.name == name && Usable(v, decrypt) then Some(ValueOf(v, scope, decrypt))
      else Applied(was, list[..|list| - 1], scope, decrypt, name)
  }

  function RefsIf(list: seq<SharedVar>, scope: Scope, p: SharedVar -> bool): seq<VarRef> {
    if list == [] then [] else
      var v := list[|list| - 1];
      RefsIf(list[..|list| - 1], scope, p) + if p(v) then [VarRef(scope, v.name)] else []
  }

  function Missing(list: seq<SharedVar>, scope: Scope): seq<VarRef> { RefsIf(list, scope, v => IsMissing(v)) }

  function Undecryptable(list: seq<SharedVar>, scope: Scope, decrypt: Decrypter): seq<VarRef> {
    RefsIf(list, scope, v => IsUndecryptable(v, decrypt))
  }

  function Get(m: map<string, Value>, name: string): Option<Value> { if name in m then Some(m[name]) else None }

  /** A name's effective value: server over org over built-in. */
  function Effective(snap: Snapshot, builtins: map<string, string>, decrypt: Decrypter, name: string): Option<Value> {
    var b := if name in builtins then Some(Value(builtins[name], false, Builtin)) else None;
    Applied(Applied(b, snap.org, Org, decrypt, name), snap.server, Server, decrypt, name)
  }

  // ---- Sorted references ----

  /** By name, then scope: "org" before "server". */
  predicate RefLess(a: VarRef, b: VarRef) {
    Less(a.name, b.name) || (a.name == b.name && a.scope == Org && b.scope == Server)
  }

  ghost predicate StrictlySorted(refs: seq<VarRef>) { forall i, j :: 0 <= i < j < |refs| ==> RefLess(refs[i], refs[j]) }

  /** The order sortRefs leaves the references in. */
  function SortRefs(refs: seq<VarRef>): seq<VarRef> { SortedBy(refs, RefLess) }

  lemma RefOrder(a: VarRef, b: VarRef, c: VarRef)
    ensures !RefLess(a, a)
    ensures RefLess(a, b) && RefLess(b, c) ==> RefLess(a, c)
    ensures a == b || RefLess(a, b) || RefLess(b, a)
  {
    LessIrreflexive(a.name);
    LessTotal(a.name, b.name);
    if Less(a.name, b.name) && Less(b.name, c.name) { LessTransitive(a.name, b.name, c.name); }
  }

  lemma SortRefsSorts(refs: seq<VarRef>)
    ensures Sorted(SortRefs(refs), RefLess) && multiset(SortRefs(refs)) == multiset(refs) && |SortRefs(refs)| == |refs|
  {
    forall a, b, c ensures !RefLess(a, a) && (RefLess(a, b) && RefLess(b, c) ==> RefLess(a, c)) { RefOrder(a, b, c); }
    SortedBySorts(refs, RefLess);
  }

  /** By name in Go's order; of two references of one name, the org's comes first. */
  lemma SortedByNameThenScope(refs: seq<VarRef>, i: nat, j: nat)
    requires i < j < |refs|
    ensures var s := SortRefs(refs);
            |s| == |refs| && !Less(s[j].name, s[i].name)
            && (s[i].name == s[j].name ==> s[i].scope == s[j].scope || (s[i].scope == Org && s[j].scope == Server))
  {
    SortRefsSorts(refs);
  }

  lemma OccursTwice(refs: seq<VarRef>, i: nat, j: nat)
    requires i < j < |refs|
    ensures refs[i] == refs[j] ==> multiset(refs)[refs[j]] >= 2
  {
    assert refs == refs[..j] + [refs[j]] + refs[j + 1..];
    assert refs[..j][i] in multiset(refs[..j]);
  }

  lemma SortedOnceIsStrict(refs: seq<VarRef>)
    requires Sorted(refs, RefLess) && forall r :: multiset(refs)[r] <= 1
    ensures StrictlySorted(refs)
  {
    forall i, j | 0 <= i < j < |refs| ensures RefLess(refs[i], refs[j]) {
      RefOrder(refs[i], refs[j], refs[i]);
      OccursTwice(refs, i, j);
    }
  }

  // ---- Resolve ----

  method Apply(values: map<string, Value>, undecryptable: seq<VarRef>, missing: seq<VarRef>,
               scope: Scope, list: seq<SharedVar>, decrypt: Decrypter)
    returns (values': map<string, Value>, undecryptable': seq<VarRef>, missing': seq<VarRef>)
    ensures forall n :: Get(values', n) == Applied(Get(values, n), list, scope, decrypt, n)
    ensures undecryptable' == undecryptable + Undecryptable(list, scope, decrypt)
    ensures missing' == missing + Missing(list, scope)
  {
    values', undecryptable', missing' := values, undecryptable, missing;
    for i := 0 to |list|
      invariant forall n :: Get(values', n) == Applied(Get(values, n), list[..i], scope, decrypt, n)
      invariant undecryptable' == undecryptable + Undecryptable(list[..i], scope, decrypt)
      invariant missing' == missing + Missing(list[..i], scope)
    {
      var v := list[i];
      assert list[..i + 1][..i] == list[..i];
      if !v.isSecret {
        values' := values'[v.name := Value(v.value, false, Shared(scope))];
      } else if v.ciphertext == "" {
        missing' := missing' + [VarRef(scope, v.name)];
      } else {
        match decrypt(v.ciphertext)
        case None => undecryptable' := undecryptable' + [VarRef(scope, v.name)];
        case Some(plain) => values' := values'[v.name := Value(plain, true, Shared(scope))];
      }
    }
    assert list[..|list|] == list;
  }

  method Run(snap: Snapshot, builtins: map<string, string>, decrypt: Decrypter) returns (r: Resolution)
    ensures forall n :: Get(r.values, n) == Effective(snap, builtins, decrypt, n)
    ensures r.undecryptable ==
            SortRefs(Undecryptable(snap.org, Org, decrypt) + Undecryptable(snap.server, Server, decrypt))
    ensures r.missing == SortRefs(Missing(snap.org, Org) + Missing(snap.server, Server))
  {
    var values := map n | n in builtins :: Value(builtins[n], false, Builtin);
    var undecryptable, missing: seq<VarRef> := [], [];
    values, undecryptable, missing := Apply(values, undecryptable, missing, Org, snap.org, decrypt);
    assert undecryptable == Undecryptable(snap.org, Org, decrypt) && missing == Missing(snap.org, Org);
    values, undecryptable, missing := Apply(values, undecryptable, missing, Server, snap.server, decrypt);
    r := Resolution(values, SortRefs(undecryptable), SortRefs(missing));
  }

  // ---- For a snapshot Validate accepts ----

  ghost predicate Entry(list: seq<SharedVar>, name: string, v: SharedVar) { v in list && v.name == name }

  /** In a valid list the name's one entry decides. */
  lemma {:induction false} OneEntryDecides(was: Option<Value>, list: seq<SharedVar>, scope: Scope, decrypt: Decrypter,
                                           name: string)
    requires ValidList(list)
    ensures (forall v :: !Entry(list, name, v)) ==> Applied(was, list, scope, decrypt, name) == was
    ensures forall v :: Entry(list, name, v) ==>
              Applied(was, list, scope, decrypt, name) ==
              if Usable(v, decrypt) then Some(ValueOf(v, scope, decrypt)) else was
  {
    if list != [] {
      var init, last := list[..|list| - 1], list[|list| - 1];
      assert list == init + [last];
      OneEntryDecides(was, init, scope, decrypt, name);
      if last.name == name {
        forall v | v in init ensures v.name != last.name {
          var i :| 0 <= i < |init| && init[i] == v;
          assert list[i] == v;
        }
      }
      forall v ensures Entry(list, name, v) <==> Entry(init, name, v) || (v == last && last.name == name) { }
    }
  }

  /** Every WF_ built-in keeps its value: no snapshot can set it. */
  lemma BuiltinsStand(snap: Snapshot, builtins: map<string, string>, decrypt: Decrypter, name: string)
    requires ValidSnapshot(snap) && name in builtins && "WF_" <= name
    ensures Effective(snap, builtins, decrypt, name) == Some(Value(builtins[name], false, Builtin))
  {
    NoReserved(snap.org, name);
    NoReserved(snap.server, name);
    var b := Some(Value(builtins[name], false, Builtin));
    OneEntryDecides(b, snap.org, Org, decrypt, name);
    OneEntryDecides(b, snap.server, Server, decrypt, name);
  }

  lemma NoReserved(list: seq<SharedVar>, name: string)
    requires ValidList(list) && "WF_" <= name
    ensures forall v :: !Entry(list, name, v)
  {
    forall v | v in list ensures v.name != name {
      var i :| 0 <= i < |list| && list[i] == v;
      assert WellFormed(list[i]);
    }
  }

  /** The value of an entry: a secret's is its decrypted ciphertext. */
  ghost predicate Holds(e: Option<Value>, v: SharedVar, scope: Scope, decrypt: Decrypter) {
    && e.Some? && e.value.scope == Shared(scope) && e.value.secret == v.isSecret
    && (v.isSecret ==> decrypt(v.ciphertext) == Some(e.value.value)) && (!v.isSecret ==> e.value.value == v.value)
  }

  /** An entry gives a value unless it is a secret without a ciphertext or one that does not decrypt. */
  predicate Gives(v: SharedVar, decrypt: Decrypter) {
    v.isSecret ==> v.ciphertext != "" && decrypt(v.ciphertext).Some?
  }

  /** Any other name has its server entry's value if that gives one, else its org entry's if that
      does, else none. */
  lemma ServerOverOrg(snap: Snapshot, builtins: map<string, string>, decrypt: Decrypter, name: string)
    requires ValidSnapshot(snap) && name !in builtins
    ensures var e := Effective(snap, builtins, decrypt, name);
            && (forall v :: Entry(snap.server, name, v) && Gives(v, decrypt) ==> Holds(e, v, Server, decrypt))
            && ((forall v :: Entry(snap.server, name, v) ==> !Gives(v, decrypt)) ==>
                  && (forall v :: Entry(snap.org, name, v) && Gives(v, decrypt) ==> Holds(e, v, Org, decrypt))
                  && ((forall v :: Entry(snap.org, name, v) ==> !Gives(v, decrypt)) ==> e == None))
  {
    var o := Applied(None, snap.org, Org, decrypt, name);
    OneEntryDecides(None, snap.org, Org, decrypt, name);
    OneEntryDecides(o, snap.server, Server, decrypt, name);
  }

  /** Who is listed as missing: the secrets without a ciphertext; as undecryptable: those whose
      ciphertext does not decrypt. */
  lemma ListedAre(snap: Snapshot, decrypt: Decrypter, r: VarRef)
    ensures var list := if r.scope == Org then snap.org else snap.server;
            && (r in SortRefs(Missing(snap.org, Org) + Missing(snap.server, Server)) <==>
                  exists v :: v in list && v.name == r.name && v.isSecret && v.ciphertext == "")
            && (r in SortRefs(Undecryptable(snap.org, Org, decrypt) + Undecryptable(snap.server, Server, decrypt)) <==>
                  exists v :: v in list && v.name == r.name && v.isSecret && v.ciphertext != ""
                              && decrypt(v.ciphertext) == None)
  {
    ListedIn(snap, v => IsMissing(v), r);
    ListedIn(snap, v => IsUndecryptable(v, decrypt), r);
  }

  lemma ListedIn(snap: Snapshot, p: SharedVar -> bool, r: VarRef)
    ensures r in SortRefs(RefsIf(snap.org, Org, p) + RefsIf(snap.server, Server, p)) <==>
            exists v :: v in (if r.scope == Org then snap.org else snap.server) && v.name == r.name && p(v)
  {
    var refs := RefsIf(snap.org, Org, p) + RefsIf(snap.server, Server, p);
    SortRefsSorts(refs);
    SameElems(SortRefs(refs), refs);
    assert r in Elems(SortRefs(refs)) <==> r in SortRefs(refs);
    assert r in Elems(refs) <==> r in refs;
    RefsAre(snap.org, Org, p, r);
    RefsAre(snap.server, Server, p, r);
  }

  lemma {:induction false} RefsAre(list: seq<SharedVar>, scope: Scope, p: SharedVar -> bool, r: VarRef)
    ensures r in RefsIf(list, scope, p) <==> r.scope == scope && exists v :: v in list && v.name == r.name && p(v)
  {
    if list != [] {
      var init, last := list[..|list| - 1], list[|list| - 1];
      RefsAre(init, scope, p, r);
      assert forall v :: v in list <==> v in init || v == last;
    }
  }

  function UsableCount(list: seq<SharedVar>, decrypt: Decrypter): nat {
    if list == [] then 0 else
      UsableCount(list[..|list| - 1], decrypt) + if Usable(list[|list| - 1], decrypt) then 1 else 0
  }

  lemma {:induction false} EachOnce(list: seq<SharedVar>, scope: Scope, decrypt: Decrypter)
    ensures UsableCount(list, decrypt) + |Missing(list, scope)| + |Undecryptable(list, scope, decrypt)| == |list|
  {
    if list != [] { EachOnce(list[..|list| - 1], scope, decrypt); }
  }

  lemma {:induction false} RefsOf(list: seq<SharedVar>, scope: Scope, p: SharedVar -> bool, r: VarRef)
    requires r in RefsIf(list, scope, p)
    ensures r.scope == scope && exists i :: 0 <= i < |list| && list[i].name == r.name
  {
    var init, last := list[..|list| - 1], list[|list| - 1];
    if r in RefsIf(init, scope, p) {
      RefsOf(init, scope, p, r);
      var i :| 0 <= i < |init| && init[i].name == r.name;
      assert list[i].name == r.name;
    }
  }

  lemma {:induction false} RefsOnce(list: seq<SharedVar>, scope: Scope, p: SharedVar -> bool, r: VarRef)
    requires ValidList(list)
    ensures multiset(RefsIf(list, scope, p))[r] <= 1
  {
    if list != [] {
      var init, last := list[..|list| - 1], list[|list| - 1];
      var refs := RefsIf(init, scope, p);
      RefsOnce(init, scope, p, r);
      if r in refs {
        RefsOf(init, scope, p, r);
        var i :| 0 <= i < |init| && init[i].name == r.name;
        assert list[i].name != last.name;
      }
      assert multiset(refs + [VarRef(scope, last.name)]) == multiset(refs) + multiset{VarRef(scope, last.name)};
      assert r !in refs ==> multiset(refs)[r] == 0;
    }
  }

  lemma BothScopesOnce(snap: Snapshot, p: SharedVar -> bool)
    requires ValidSnapshot(snap)
    ensures StrictlySorted(SortRefs(RefsIf(snap.org, Org, p) + RefsIf(snap.server, Server, p)))
  {
    var refs := RefsIf(snap.org, Org, p) + RefsIf(snap.server, Server, p);
    SortRefsSorts(refs);
    forall r ensures multiset(refs)[r] <= 1 {
      RefsOnce(snap.org, Org, p, r);
      RefsOnce(snap.server, Server, p, r);
      if r in RefsIf(snap.org, Org, p) { RefsOf(snap.org, Org, p, r); }
      if r in RefsIf(snap.server, Server, p) { RefsOf(snap.server, Server, p, r); }
      assert multiset(refs)[r] == multiset(RefsIf(snap.org, Org, p))[r] + multiset(RefsIf(snap.server, Server, p))[r];
    }
    SortedOnceIsStrict(SortRefs(refs));
  }

  /** Every entry is applied, missing or undecryptable, exactly one of them, and both lists
      are sorted without duplicates. */
  lemma EveryEntryAccounted(snap: Snapshot, decrypt: Decrypter)
    requires ValidSnapshot(snap)
    ensures var m := SortRefs(Missing(snap.org, Org) + Missing(snap.server, Server));
            var u := SortRefs(Undecryptable(snap.org, Org, decrypt) + Undecryptable(snap.server, Server, decrypt));
            && StrictlySorted(m) && StrictlySorted(u)
            && UsableCount(snap.org, decrypt) + UsableCount(snap.server, decrypt) + |m| + |u| ==
               |snap.org| + |snap.server|
  {
    BothScopesOnce(snap, v => IsMissing(v));
    BothScopesOnce(snap, v => IsUndecryptable(v, decrypt));
    EachOnce(snap.org, Org, decrypt);
    EachOnce(snap.server, Server, decrypt);
    SortRefsSorts(Missing(snap.org, Org) + Missing(snap.server, Server));
    SortRefsSorts(Undecryptable(snap.org, Org, decrypt) + Undecryptable(snap.server, Server, decrypt));
  }
}
