/** internal/domain/command/vars.go and shared_variable.go: the vars.sync snapshot and the
    rules it must pass. */
module Snapshots {
  import VarRef

  datatype SharedVar = SharedVar(name: string, isSecret: bool, value: string, ciphertext: string)

  datatype Snapshot = Snapshot(revision: int, serverID: string, serverName: string, orgID: string,
                               org: seq<SharedVar>, server: seq<SharedVar>)

  const ZERO := Snapshot(0, "", "", "", [], [])

  datatype Scope = Org | Server

  // ---- Names ----

  const NAME_MAX := 255

  /** COMPOSE_PROJECT_NAME and the agent's WF_ built-ins. */
  predicate Reserved(name: string) { name == "COMPOSE_PROJECT_NAME" || "WF_" <= name }

  predicate ValidName(name: string) {
    && name != "" && |name| <= NAME_MAX
    && VarRef.IsNameStart(name[0]) && (forall i :: 0 <= i < |name| ==> VarRef.IsNameChar(name[i]))
    && !Reserved(name)
  }

  /** An identifier of at most 255 characters that is not the project's name nor a built-in's. */
  lemma ValidNameIs(name: string)
    ensures ValidName(name) <==>
            VarRef.Identifier(name) && |name| <= 255 && name != "COMPOSE_PROJECT_NAME" && !("WF_" <= name)
  {
    forall i | 0 <= i < |name|
      ensures VarRef.IsNameStart(name[i]) <==> VarRef.Letter(name[i])
      ensures VarRef.IsNameChar(name[i]) <==> VarRef.Letter(name[i]) || VarRef.Digit(name[i])
    {
      VarRef.LettersAre(name[i]);
    }
  }

  // ---- Validate ----

  predicate WellFormed(v: SharedVar) {
    ValidName(v.name) && (v.isSecret ==> v.value == "") && (!v.isSecret ==> v.ciphertext == "")
  }

  ghost predicate ValidList(vars: seq<SharedVar>) {
    && (forall i :: 0 <= i < |vars| ==> WellFormed(vars[i]))
    && (forall i, j :: 0 <= i < j < |vars| ==> vars[i].name != vars[j].name)
  }

  ghost predicate ValidSnapshot(r: Snapshot) { r.revision >= 0 && ValidList(r.org) && ValidList(r.server) }

  datatype Problem =
    | Fine | BadRevision
    | BadName(at: nat) | Duplicate(at: nat) | SecretWithValue(at: nat) | PlainWithCiphertext(at: nat)

  /** What a refusal of vars at its first bad entry says. */
  ghost predicate Explains(vars: seq<SharedVar>, p: Problem) {
    match p
    case Fine => ValidList(vars)
    case BadRevision => false
    case BadName(at) => at < |vars| && ValidList(vars[..at]) && !ValidName(vars[at].name)
    case Duplicate(at) =>
      at < |vars| && ValidList(vars[..at]) && exists i :: 0 <= i < at && vars[i].name == vars[at].name
    case SecretWithValue(at) => at < |vars| && ValidList(vars[..at]) && vars[at].isSecret && vars[at].value != ""
    case PlainWithCiphertext(at) =>
      at < |vars| && ValidList(vars[..at]) && !vars[at].isSecret && vars[at].ciphertext != ""
  }

  method ValidateList(vars: seq<SharedVar>) returns (p: Problem)
    ensures Explains(vars, p)
    ensures p == Fine <==> ValidList(vars)
  {
    var seen: set<string> := {};
    for i := 0 to |vars|
      invariant ValidList(vars[..i])
      invariant forall n :: n in seen <==> exists k :: 0 <= k < i && vars[k].name == n
    {
      var v := vars[i];
      assert vars[..i + 1] == vars[..i] + [v];
      if !ValidName(v.name) { return BadName(i); }
      if v.name in seen { return Duplicate(i); }
      seen := seen + {v.name};
      if v.isSecret && v.value != "" { return SecretWithValue(i); }
      if !v.isSecret && v.ciphertext != "" { return PlainWithCiphertext(i); }
    }
    assert vars[..|vars|] == vars;
    return Fine;
  }

  method Validate(r: Snapshot) returns (p: Problem)
    ensures p == Fine <==> ValidSnapshot(r)
    ensures p != Fine ==>
              if r.revision < 0 then p == BadRevision
              else Explains(r.org, p) || (ValidList(r.org) && Explains(r.server, p))
  {
    if r.revision < 0 { return BadRevision; }
    p := ValidateList(r.org);
    if p != Fine { return; }
    p := ValidateList(r.server);
  }

  // ---- Secrets ----

  function ScrubbedVar(v: SharedVar): SharedVar { if v.isSecret then v.(value := "") else v }

  function ScrubbedList(vars: seq<SharedVar>): seq<SharedVar> {
    seq(|vars|, i requires 0 <= i < |vars| => ScrubbedVar(vars[i]))
  }

  function Scrubbed(s: Snapshot): Snapshot { s.(org := ScrubbedList(s.org), server := ScrubbedList(s.server)) }

  ghost predicate NoPlainSecret(vars: seq<SharedVar>) {
    forall i :: 0 <= i < |vars| && vars[i].isSecret ==> vars[i].value == ""
  }

  ghost predicate Clean(s: Snapshot) { NoPlainSecret(s.org) && NoPlainSecret(s.server) }
}
